# Chat relay session, modelled in Dafny

This project models `handle_socket` in `src/main.rs`. That function serves one browser websocket:
- It pulls the model from the local inference engine.
- It then runs a read-eval-print loop (REPL) until the connection ends:
  - read a frame;
  - stop on `exit`;
  - serialise the conversation history in front of the prompt;
  - push the prompt as a `User` turn;
  - stream the engine's answer back as events;
  - store the answer as a `DeepSeekR1` turn and send `Done`.

The model has two layers.

**Reference semantics** (`session_spec.dfy`) are pure functions:
- `Generate`, `Turn`, `Repl` and `Connection` compute what a whole session does.
- The inputs are the inbound frames, the engine's reply to each prompt, and whether each send is accepted.
- They return how the session ended, the final history, the events delivered, the prompts sent to the engine, and the frames never read.
- Lemmas state the properties the relay promises in these terms.

**Imperative code** (`relay.dfy`) follows the Rust loop by loop:
- The classes are `Socket`, `TokenStream`, `Engine` and `Session`.
- `history` and the per-turn `buffer` are updated in place.
- `Session.RelayToken`, `RelayBatch` and `RelayStream` are specified against the token functions of `tokens.dfy` (`TokenEvent`, `TurnEvents`, `Absorb`, `Buffer`), not against `session_spec.dfy`.
  - They state the events sent and which send was refused.
  - They state the buffer only when every send was accepted and the stream ended cleanly. After a refused send or a stream error the turn is abandoned, so the buffer is never used.
- `Session.RelayReply`, `Turn`, `Repl` and `HandleSocket` are each proved to leave exactly the state the reference semantics compute.

The supporting modules:
- `protocol.dfy`: the enums `MessageType`, `Event`, the frame and reply shapes, and the failure reasons.
- `text.dfy`: Rust's `str::trim` over `char::is_whitespace`, and the `exit` test.
- `tokens.dfy`: how each token is relayed and folded into the buffer. It also proves that the fold equals the independent definition `VisibleText`, "the ordinary tokens after the last `</think>`".
- `history_json.dfy`: the compact JSON that `serde_json::to_string` gives the history, and the augmented prompt. A parser written beside the encoder proves that the prompt loses nothing.

The environment is given as data:
- Inbound frames are a sequence. Its end is `recv()` returning `None`.
- The engine is a function from the prompt it receives to a `Reply`.
  - `Refused` models `generate_stream` failing.
  - `Streamed(batches, failsAtEnd)` models the batches, optionally followed by a stream error.
- Sends are a predicate on the number of events already delivered. The first refusal aborts the session.

## Notable behaviour

- **Reasoning is relayed.** Tokens between `<think>` and `</think>` are sent as `Token` events and appended to the buffer. `</think>` then clears the buffer (src/main.rs:190-216).
  - So for `<think>`, `reasoning`, `</think>`, `Answer` the client receives `Thinking`, `Token("reasoning")`, `DoneThinking`, `Token("Answer")`, `Done`.
  - The stored reply is `Answer` (`SessionSpec.ThinkingScenario`).
- **Unclosed reasoning is stored.** With a `<think>` but no `</think>`, the reasoning tokens do end up in the stored reply (`Tokens.NoCloseKeepsAll`).
- **Reply stored before `Done`.** The reply is pushed to the history before `Done` is sent (src/main.rs:229-230). A refused `Done` still leaves the `DeepSeekR1` turn in the history (`SessionSpec.GenerateStreamEnded`).
- **History is unbounded.** It grows by one turn per prompt and per completed reply.

## Model

| member | source | states |
|---|---|---|
| Text.TrimStart | src/main.rs:155 | the result is the longest suffix not starting with whitespace; everything dropped is whitespace |
| Text.TrimEnd | src/main.rs:155 | the result is the longest prefix not ending with whitespace; everything dropped is whitespace |
| Text.Trim | src/main.rs:155 | the trimmed text is no longer than the frame and neither starts nor ends with whitespace |
| Text.TrimIsInfix | src/main.rs:155 | the trimmed text is the infix after the leading whitespace, with only whitespace after it |
| Text.PaddedExit | src/main.rs:155 | `exit` with any whitespace before and after is the exit command |
| Text.ExitIsPadded | src/main.rs:155 | every exit command is `exit` with only whitespace around it (with `PaddedExit`, an if-and-only-if) |
| Text.ExitAccepted | src/main.rs:155 | `exit` and `  exit\n` end the session |
| Text.ExitRejected | src/main.rs:155 | `Exit`, `exit now` and the empty frame do not |
| Text.IsWhitespace | src/main.rs:155 | definition of `char::is_whitespace` (Unicode White_Space); its properties are in `TrimStart`, `TrimEnd` and `Trim` |
| Text.IsExit | src/main.rs:155 | definition of the exit test `prompt.trim() == "exit"`; its properties are in `PaddedExit`, `ExitIsPadded`, `ExitAccepted` and `ExitRejected` |
| Tokens.TokenEvent | src/main.rs:190-224 | `<think>` becomes `Thinking`, `</think>` becomes `DoneThinking`, any other token `t` becomes `Token(t)`, and only non-markers become `Token` |
| Tokens.TurnEvents | src/main.rs:186-224 | definition: one event per token, in order; its properties are in `TurnEventsPointwise`, `TurnEventsAppend`, `MarkerEvents`, `PayloadsAreOrdinaryTokens` and `TokensNeverDone` |
| Tokens.Absorb | src/main.rs:190-216 | definition of one buffer step: cleared on `</think>`, kept on `<think>`, extended otherwise; its properties are in `VisibleTextStep` and `BufferIsVisibleText` |
| Tokens.Buffer | src/main.rs:174-216 | definition of the buffer as the fold of `Absorb` over the tokens; its properties are in `BufferIsVisibleText`, `ReasoningDropped` and `NoCloseKeepsAll` |
| Tokens.TurnEventsPointwise | src/main.rs:186-224 | the events of a token sequence are one per token, in stream order |
| Tokens.TurnEventsAppend | src/main.rs:175-225 | the events of consecutive batches are the concatenation of each batch's events |
| Tokens.FlattenConcat | src/main.rs:175-186 | the tokens of consecutive batch lists are the concatenation of their tokens |
| Tokens.FlattenAppend | src/main.rs:175-186 | one more batch appends its tokens to the stream's tokens |
| Tokens.MarkerEvents | src/main.rs:190-213 | exactly one `Thinking` per `<think>` and one `DoneThinking` per `</think>`; markers are never `Token` payloads |
| Tokens.PayloadsAreOrdinaryTokens | src/main.rs:215-224 | the `Token` payloads are exactly the non-marker tokens, in order |
| Tokens.OrdinaryTokens | src/main.rs:215-224 | every ordinary token comes from the stream and is not a marker |
| Tokens.TokensNeverDone | src/main.rs:186-225 | relaying tokens never sends `Done` |
| Tokens.AfterLastClose | src/main.rs:211 | the tokens after the last `</think>`: a suffix free of `</think>` preceded by `</think>` unless it is everything |
| Tokens.AfterLastCloseUnique | src/main.rs:211 | those three properties determine that suffix |
| Tokens.AfterLastCloseStep | src/main.rs:211 | `</think>` empties the suffix; any other token extends it |
| Tokens.OrdinaryAppend | src/main.rs:190-216 | the ordinary tokens of a concatenation are the concatenation of the ordinary tokens |
| Tokens.OrdinarySnoc | src/main.rs:190-216 | a marker adds no ordinary token; any other token adds itself |
| Tokens.ConcatAppend | src/main.rs:216 | appending a token to the list appends its text to the concatenation |
| Tokens.VisibleTextStep | src/main.rs:190-216 | the visible text after one more token: cleared on `</think>`, kept on `<think>`, extended otherwise |
| Tokens.BufferIsVisibleText | src/main.rs:174-216 | the buffer the loop accumulates is the concatenation of the ordinary tokens after the last `</think>` |
| Tokens.ReasoningDropped | src/main.rs:211-216 | nothing before the last `</think>` reaches the stored text |
| Tokens.NoCloseKeepsAll | src/main.rs:190-216 | without `</think>`, every ordinary token is stored, reasoning included |
| Tokens.VisibleTextExample | src/main.rs:190-229 | `<think>`, `reasoning`, `</think>`, `Answer` stores `Answer` |
| HistoryJson.EscapeChar | src/main.rs:159 | a character is kept as itself unless it is a quote, a backslash or a control character, which become a backslash escape |
| HistoryJson.ParseEscapedChar | src/main.rs:159 | one escaped character reads back as itself |
| HistoryJson.ParseEscaped | src/main.rs:159 | an escaped string body reads back up to its closing quote |
| HistoryJson.ParseEncodedString | src/main.rs:159 | a JSON string literal reads back as the text |
| HistoryJson.ParseEncodedTurn | src/main.rs:109-113 | `{"User":...}` and `{"DeepSeekR1":...}` read back as the turn |
| HistoryJson.ParseEncodedItems | src/main.rs:159 | a non-empty comma-separated list of turns reads back as the turns |
| HistoryJson.ParseEncodedHistory | src/main.rs:159 | the serialised history reads back as the history |
| HistoryJson.EncodeHistory | src/main.rs:159 | definition of the compact JSON of the history; its properties are in `ParseEncodedHistory` |
| HistoryJson.AugmentedPrompt | src/main.rs:161 | definition of the engine prompt; its properties are in `ParseAugmentedPrompt` and `AugmentedPromptInjective` |
| HistoryJson.ParseAugmentedPrompt | src/main.rs:159-161 | the engine's prompt splits back into the history before the turn and the raw prompt |
| HistoryJson.AugmentedPromptInjective | src/main.rs:159-161 | different histories or prompts never give the same engine prompt |
| SessionSpec.Generate | src/main.rs:165-237 | definition of one reply's effect; its properties are in `GenerateCompletes`, `GenerateStoresVisibleText`, `GenerateSendRefused`, `GenerateStreamBroke`, `GenerateStreamEnded`, `GenerateInOrder`, `GenerateOneDone`, `GenerateHistory`, `GenerateUsers`, `GenerateFailures` and `GenerateAlternates` |
| SessionSpec.Turn | src/main.rs:159-237 | definition of one prompt's effect; its properties are in `TurnRequest`, `TurnPushesPrompt`, `TurnExtends`, `TurnOneDone` and `TurnAlternates` |
| SessionSpec.Repl | src/main.rs:140-240 | definition of the REPL loop; its properties are in `ReplContinues`, `ReplFails`, `QuietStops`, `ReplUnread`, `ReplKeepsHistory`, `ReplKeepsSent`, `ReplKeepsRequests`, `ReplUsers`, `ReplRequests`, `ReplDones` and `ReplAlternates` |
| SessionSpec.Connection | src/main.rs:123-241 | definition of a whole connection; its properties are in `PullFailureIsSilent` and the scenario lemmas |
| SessionSpec.Accepted | src/main.rs:192-237 | the events delivered before the first refused send, and that send is refused |
| SessionSpec.AcceptedSends | src/main.rs:192-237 | every send before that point is accepted |
| SessionSpec.AcceptedUnique | src/main.rs:192-237 | the first refusal determines the count |
| SessionSpec.TurnRequest | src/main.rs:159-161 | the engine is asked with the history as it stood before the prompt, followed by the raw prompt, and both read back |
| SessionSpec.TurnPushesPrompt | src/main.rs:153-162 | the untrimmed prompt is pushed as a `User` turn before generation, whatever happens next |
| SessionSpec.TurnExtends | src/main.rs:159-237 | a turn only appends to the history and to the events sent |
| SessionSpec.TurnOneDone | src/main.rs:229-237 | a turn sends exactly one `Done` if it completes and none otherwise |
| SessionSpec.TurnAlternates | src/main.rs:162-229 | `User` and `DeepSeekR1` turns keep alternating, and a completed turn ends on a reply |
| SessionSpec.GenerateCompletes | src/main.rs:165-237 | a turn completes if and only if the engine streams to the end without error and every event, `Done` included, is accepted |
| SessionSpec.GenerateStoresVisibleText | src/main.rs:229-237 | a completed turn stores the visible text and delivers the token events followed by `Done` |
| SessionSpec.GenerateSendRefused | src/main.rs:192-224 | a refused token send stops the turn there: exactly the events before it, no reply stored |
| SessionSpec.GenerateStreamBroke | src/main.rs:175-184 | a stream error after all batches were relayed fails the turn with no reply stored and no `Done` |
| SessionSpec.GenerateStreamEnded | src/main.rs:226-237 | a clean end stores the buffer, then the turn completes exactly when `Done` is accepted |
| SessionSpec.GenerateInOrder | src/main.rs:186-237 | what a turn delivers is a prefix of its token events followed by `Done` |
| SessionSpec.GenerateOneDone | src/main.rs:229-237 | generation sends one `Done` exactly when it completes |
| SessionSpec.GenerateHistory | src/main.rs:229 | generation stores at most one turn, the buffer, and does so whenever it completes |
| SessionSpec.GenerateUsers | src/main.rs:229 | generation never adds a `User` turn |
| SessionSpec.GenerateFailures | src/main.rs:165-237 | a reply stored on a failed turn means `Done` was refused; engine refusal and stream error are told apart |
| SessionSpec.AskAlternates | src/main.rs:162 | pushing a prompt onto a settled history keeps turns alternating |
| SessionSpec.AnswerSettles | src/main.rs:229 | storing the reply after a prompt settles the history |
| SessionSpec.GenerateAlternates | src/main.rs:229 | generation after a prompt keeps turns alternating |
| SessionSpec.ReplContinues | src/main.rs:140-238 | after a completed turn the loop goes on with the next frame |
| SessionSpec.ReplFails | src/main.rs:140-238 | a failed turn ends the session with that failure |
| SessionSpec.QuietStops | src/main.rs:140-157 | the end of the frames, a receive error, a non-text frame and `exit` end the session with `Ok(())`, sending nothing |
| SessionSpec.PullFailureIsSilent | src/main.rs:134-139 | a failed model pull reads no frame, sends nothing and stores nothing |
| SessionSpec.ReplUnread | src/main.rs:140 | frames are read in order; what is left unread is a suffix |
| SessionSpec.ReplKeepsHistory | src/main.rs:139-238 | earlier history is never lost |
| SessionSpec.ReplKeepsSent | src/main.rs:140-238 | events already sent stay sent |
| SessionSpec.ReplKeepsRequests | src/main.rs:165-166 | earlier engine requests stay in order |
| SessionSpec.ReplUsers | src/main.rs:153-162 | the `User` turns are exactly the prompts read, excluding `exit` |
| SessionSpec.ReplRequests | src/main.rs:165-172 | the engine is asked once per prompt read |
| SessionSpec.ReplDones | src/main.rs:140-240 | one `Done` per prompt read, except for a turn that fails |
| SessionSpec.ReplAlternates | src/main.rs:139-240 | the history always alternates, and ends on a reply when the session closes normally |
| SessionSpec.HelloTurn | src/main.rs:159-237 | the turn for `Hello` answered `Hi`, ` there` |
| SessionSpec.HelloScenario | src/main.rs:123-241 | `Hello` answered `Hi`, ` there` relays both tokens and `Done` and stores the exchange |
| SessionSpec.ThinkingTurn | src/main.rs:159-237 | the turn for a reply that thinks first |
| SessionSpec.ThinkingScenario | src/main.rs:123-241 | reasoning is relayed between `Thinking` and `DoneThinking`; only `Answer` is stored |
| SessionSpec.SendFailureScenario | src/main.rs:123-241 | a client gone after the first event ends the session right there, with the next frame unread |
| SessionSpec.ExitScenario | src/main.rs:153-157 | a padded `exit` ends the session before the next frame |
| Relay.Socket.Recv | src/main.rs:140 | the next frame is taken off the inbound queue; `None` once it is empty |
| Relay.Socket.Send | src/main.rs:192-199 | a send is delivered exactly when the client accepts it |
| Relay.TokenStream.Next | src/main.rs:175-184 | batches in order, then the error or the end |
| Relay.Engine.PullModel | src/main.rs:134-136 | the pull succeeds exactly as the engine decides |
| Relay.Engine.GenerateStream | src/main.rs:165-172 | the prompt is recorded; the stream carries the engine's reply, or is absent if it refuses |
| Relay.Session.RelayToken | src/main.rs:190-224 | one token: its event is sent, and on success the buffer is cleared, kept or extended |
| Relay.Session.RelayBatch | src/main.rs:186-225 | the `for` loop: events of the tokens relayed, stopping at the first refusal, with the buffer as the fold of all tokens so far |
| Relay.Session.RelayStream | src/main.rs:175-226 | the stream loop: everything relayed and the buffer, or where the stream broke or a send was refused |
| Relay.Session.RelayReply | src/main.rs:174-237 | relaying a reply leaves the failure, history and events that `Generate` computes |
| Relay.Session.Turn | src/main.rs:159-237 | one prompt leaves the state `SessionSpec.Turn` computes and records the engine request |
| Relay.Session.Repl | src/main.rs:139-240 | the loop leaves the outcome, history, events, requests and unread frames of `SessionSpec.Repl` |
| Relay.HandleSocket | src/main.rs:123-241 | a connection ends as `SessionSpec.Connection` computes |

## Left out

- Filesystem set-up, the engine subprocess, log copying, the web server, `handler`, `handle_socket_helper` and `main` (src/main.rs:14-107, 243-322) are outside the core. They do I/O, spawn processes and run concurrently.
- The `Ollama` client is a foreign library. `pull_model` is a boolean. `generate_stream` is a function from the prompt to a `Reply`.
  - The model name is not part of a request. It comes from the `MODEL_NAME` environment variable, defaulting to `deepseek-r1:8b`, and is the same for every request of a connection.
- A stream error anywhere is modelled as the batches before it followed by the error. The loop stops at the first error, so nothing after it can matter.
- Events are kept as values. Their JSON text (`{"event":"Token","token":...}`) is not modelled: `serde_json::to_string` is library code, and the client-side decoding is out of scope.
- The `?` after each `serde_json::to_string` (src/main.rs:159-160, 193-194, 204-205, 218-219, 231-232) is not modelled. Serialising these enums and a `Vec` of them cannot fail.
- Logging (`info!`, `warn!`, `error!`, `eprint!`, `eprintln!`, `println!`) has no effect on the session and is left out.
- Websocket frames other than text collapse into `NonText`: binary, ping, pong and close all end the session the same way.
- Error messages built with `anyhow!` are reduced to the `Failure` reason.
