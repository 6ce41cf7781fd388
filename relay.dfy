/** The per-connection handler `handle_socket` (src/main.rs:123-241) as imperative
    code over three objects: the WebSocket, the inference engine with the token
    stream it opens, and the session that owns the conversation history. The
    token-level methods are specified against the fold in module Tokens; RelayReply,
    Turn, Repl and HandleSocket are proved to leave the state module SessionSpec computes. */
module Relay {
  import opened Protocol
  import opened Text
  import opened Tokens
  import opened HistoryJson
  import SessionSpec

  /** The client's WebSocket: the frames still to be received, the events sent so
      far, and which sends the client accepts (the `n`-th send succeeds exactly
      when `sendOk(n)`). */
  class Socket {
    var incoming: seq<Frame>
    var sent: seq<Event>
    const sendOk: nat -> bool

    constructor (frames: seq<Frame>, sendOk: nat -> bool)
      ensures incoming == frames && sent == [] && this.sendOk == sendOk
    {
      incoming := frames;
      sent := [];
      this.sendOk := sendOk;
    }

    /** `socket.recv()`: the next frame, or `None` once the client is gone. */
    method Recv() returns (f: Option<Frame>)
      modifies this
      ensures old(incoming) == [] ==> f == None && incoming == []
      ensures old(incoming) != [] ==> f == Some(old(incoming)[0]) && incoming == old(incoming)[1..]
      ensures sent == old(sent)
    {
      if incoming == [] {
        f := None;
      } else {
        f := Some(incoming[0]);
        incoming := incoming[1..];
      }
    }

    /** `socket.send(..)`: delivers `e` when the client accepts this send. */
    method Send(e: Event) returns (ok: bool)
      modifies this
      ensures ok == sendOk(|old(sent)|)
      ensures sent == if ok then old(sent) + [e] else old(sent)
      ensures incoming == old(incoming)
    {
      ok := sendOk(|sent|);
      if ok {
        sent := sent + [e];
      }
    }
  }

  /** The token stream of one generation request: the batches still to come, and
      whether the stream reports an error after the last one. */
  class TokenStream {
    var batches: seq<seq<string>>
    const failsAtEnd: bool

    constructor (batches: seq<seq<string>>, failsAtEnd: bool)
      ensures this.batches == batches && this.failsAtEnd == failsAtEnd
    {
      this.batches := batches;
      this.failsAtEnd := failsAtEnd;
    }

    /** `stream.next()`: the next batch, then the error or the end of the stream. */
    method Next() returns (p: Pull)
      modifies this
      ensures old(batches) != [] ==> p == Batch(old(batches)[0]) && batches == old(batches)[1..]
      ensures old(batches) == [] ==>
        batches == [] && p == if failsAtEnd then StreamError else EndOfStream
    {
      if batches == [] {
        p := if failsAtEnd then StreamError else EndOfStream;
      } else {
        p := Batch(batches[0]);
        batches := batches[1..];
      }
    }
  }

  /** The inference engine: whether pulling the model succeeds, what it answers
      each prompt, and the prompts it was asked so far. */
  class Engine {
    const pullOk: bool
    const respond: string -> Reply
    var requests: seq<string>

    constructor (pullOk: bool, respond: string -> Reply)
      ensures this.pullOk == pullOk && this.respond == respond && requests == []
    {
      this.pullOk := pullOk;
      this.respond := respond;
      requests := [];
    }

    /** `ollama.pull_model(..)`. */
    method PullModel() returns (ok: bool)
      ensures ok == pullOk
    {
      ok := pullOk;
    }

    /** `ollama.generate_stream(..)`: a fresh stream of the answer to `prompt`, or
        `null` when the request fails. */
    method GenerateStream(prompt: string) returns (s: TokenStream?)
      modifies this
      ensures requests == old(requests) + [prompt]
      ensures s == null <==> respond(prompt).Refused?
      ensures s != null ==> fresh(s) && s.batches == respond(prompt).batches
                            && s.failsAtEnd == respond(prompt).failsAtEnd
    {
      requests := requests + [prompt];
      var reply := respond(prompt);
      if reply.Refused? {
        s := null;
      } else {
        s := new TokenStream(reply.batches, reply.failsAtEnd);
      }
    }
  }

  /** The state of one connection's REPL: the socket, the engine and the
      conversation history. */
  class Session {
    const socket: Socket
    const engine: Engine
    var history: seq<MessageType>

    constructor (socket: Socket, engine: Engine)
      ensures this.socket == socket && this.engine == engine && history == []
    {
      this.socket := socket;
      this.engine := engine;
      history := [];
    }

    /** One token (src/main.rs:190-224): `<think>` and `</think>` are sent as
        `Thinking` and `DoneThinking`, and `</think>` clears the buffer once sent;
        any other token is appended to the buffer and sent as a `Token` event. */
    method RelayToken(token: string, buffer: string) returns (newBuffer: string, ok: bool)
      modifies socket
      ensures ok == socket.sendOk(|old(socket.sent)|)
      ensures socket.sent == if ok then old(socket.sent) + [TokenEvent(token)] else old(socket.sent)
      ensures ok ==> newBuffer == Absorb(buffer, token)
      ensures socket.incoming == old(socket.incoming)
    {
      newBuffer := buffer;
      if token == ThinkOpen {
        ok := socket.Send(Thinking);
      } else if token == ThinkClose {
        ok := socket.Send(DoneThinking);
        if ok {
          newBuffer := "";
        }
      } else {
        newBuffer := newBuffer + token;
        ok := socket.Send(Token(token));
      }
    }

    /** The `for resp in responses` loop (src/main.rs:186-225): each token is sent
        as its event and folded into `buffer`. It stops at the first refused send,
        after `relayed` tokens went out. */
    method RelayBatch(tokens: seq<string>, buffer: string, ghost before: seq<string>)
      returns (newBuffer: string, ok: bool, ghost relayed: nat)
      requires buffer == Buffer(before)
      modifies socket
      ensures relayed <= |tokens| && (ok <==> relayed == |tokens|)
      ensures socket.sent == old(socket.sent) + TurnEvents(tokens[..relayed])
      ensures SessionSpec.AcceptsAll(socket.sendOk, |old(socket.sent)|, |old(socket.sent)| + relayed)
      ensures !ok ==> !socket.sendOk(|old(socket.sent)| + relayed)
      ensures ok ==> newBuffer == Buffer(before + tokens)
      ensures socket.incoming == old(socket.incoming)
    {
      newBuffer := buffer;
      ghost var sent0 := socket.sent;
      assert before + tokens[..0] == before;
      var i := 0;
      while i < |tokens|
        invariant 0 <= i <= |tokens|
        invariant newBuffer == Buffer(before + tokens[..i])
        invariant socket.sent == sent0 + TurnEvents(tokens[..i])
        invariant SessionSpec.AcceptsAll(socket.sendOk, |sent0|, |sent0| + i)
        invariant socket.incoming == old(socket.incoming)
      {
        var token := tokens[i];
        RelayStep(before, tokens, i);
        var sentOk;
        newBuffer, sentOk := RelayToken(token, newBuffer);
        if !sentOk {
          return newBuffer, false, i;
        }
        SessionSpec.AcceptsOneMore(socket.sendOk, |sent0|, |sent0| + i);
        i := i + 1;
      }
      assert tokens[..i] == tokens;
      ok, relayed := true, i;
    }

    /** The stream loop (src/main.rs:175-226): batches are relayed in order until
        the stream ends, breaks, or a send is refused. `relayed` is the tokens whose
        events went out; `buffer` is the text accumulated from them. */
    method RelayStream(stream: TokenStream)
      returns (buffer: string, failure: Option<Failure>, ghost relayed: seq<string>)
      modifies socket, stream
      ensures failure == None || failure == Some(StreamFailed) || failure == Some(SendFailed)
      ensures socket.sent == old(socket.sent) + TurnEvents(relayed)
      ensures SessionSpec.AcceptsAll(socket.sendOk, |old(socket.sent)|, |old(socket.sent)| + |relayed|)
      ensures failure != Some(SendFailed) ==> relayed == Flatten(old(stream.batches))
      ensures failure == Some(StreamFailed) <==> stream.failsAtEnd && failure != Some(SendFailed)
      ensures failure == None ==> buffer == Buffer(relayed)
      ensures failure == Some(SendFailed) ==>
        |relayed| < |Flatten(old(stream.batches))| && Flatten(old(stream.batches))[..|relayed|] == relayed
        && !socket.sendOk(|old(socket.sent)| + |relayed|)
      ensures socket.incoming == old(socket.incoming)
    {
      ghost var all := stream.batches;
      ghost var sent0 := socket.sent;
      ghost var k := 0;
      ghost var seen: seq<string> := [];
      buffer := "";
      while true
        invariant k <= |all| && stream.batches == all[k..] && seen == Flatten(all[..k])
        invariant buffer == Buffer(seen)
        invariant socket.sent == sent0 + TurnEvents(seen)
        invariant SessionSpec.AcceptsAll(socket.sendOk, |sent0|, |sent0| + |seen|)
        invariant socket.incoming == old(socket.incoming)
        decreases |stream.batches|
      {
        var p := stream.Next();
        match p {
          case EndOfStream =>
            assert all[..k] == all;
            return buffer, None, seen;
          case StreamError =>
            assert all[..k] == all;
            return buffer, Some(StreamFailed), seen;
          case Batch(tokens) =>
            var newBuffer, ok, count := RelayBatch(tokens, buffer, seen);
            BatchAdvance(all, k, count);
            if !ok {
              return newBuffer, Some(SendFailed), seen + tokens[..count];
            }
            assert tokens[..count] == tokens;
            buffer, seen := newBuffer, seen + tokens;
            k := k + 1;
        }
      }
    }

    /** The reply to one prompt (src/main.rs:174-237) once the `User` turn is in the
        history: relay the stream, store the accumulated text, then send `Done`. */
    method RelayReply(stream: TokenStream) returns (failure: Option<Failure>)
      modifies this, socket, stream
      ensures var g := SessionSpec.Generate(old(history), old(socket.sent),
                                            Streamed(old(stream.batches), stream.failsAtEnd), socket.sendOk);
        failure == g.failure && history == g.history && socket.sent == g.sent
      ensures socket.incoming == old(socket.incoming)
    {
      ghost var batches := stream.batches;
      ghost var sent0 := socket.sent;
      var buffer;
      ghost var relayed;
      buffer, failure, relayed := RelayStream(stream);
      if failure == Some(SendFailed) {
        SessionSpec.GenerateSendRefused(history, sent0, batches, stream.failsAtEnd, socket.sendOk, relayed);
        return;
      } else if failure == Some(StreamFailed) {
        SessionSpec.GenerateStreamBroke(history, sent0, batches, socket.sendOk);
        return;
      }
      SessionSpec.GenerateStreamEnded(history, sent0, batches, socket.sendOk);
      history := history + [DeepSeekR1(buffer)];
      var ok := socket.Send(Done);
      failure := if ok then None else Some(SendFailed);
    }

    /** One prompt (src/main.rs:159-237): ask the engine with the history as it
        stood, push the `User` turn, then relay the answer. */
    method Turn(prompt: string) returns (failure: Option<Failure>)
      modifies this, socket, engine
      ensures var t := SessionSpec.Turn(old(history), old(socket.sent), prompt, engine.respond, socket.sendOk);
        failure == t.failure && history == t.history && socket.sent == t.sent
        && engine.requests == old(engine.requests) + [t.request]
      ensures socket.incoming == old(socket.incoming)
    {
      var request := AugmentedPrompt(history, prompt);
      history := history + [User(prompt)];
      var stream := engine.GenerateStream(request);
      if stream == null {
        return Some(GenerateFailed);
      }
      failure := RelayReply(stream);
    }

    /** The REPL loop (src/main.rs:139-240). */
    method Repl() returns (outcome: Outcome)
      modifies this, socket, engine
      ensures var t := SessionSpec.Repl(old(socket.incoming), old(history), old(socket.sent),
                                        old(engine.requests), engine.respond, socket.sendOk);
        outcome == t.outcome && history == t.history && socket.sent == t.sent
        && engine.requests == t.requests && socket.incoming == t.unread
    {
      while true
        invariant SessionSpec.Repl(old(socket.incoming), old(history), old(socket.sent),
                                   old(engine.requests), engine.respond, socket.sendOk)
               == SessionSpec.Repl(socket.incoming, history, socket.sent,
                                   engine.requests, engine.respond, socket.sendOk)
        decreases |socket.incoming|
      {
        ghost var frames := socket.incoming;
        ghost var h, s, q := history, socket.sent, engine.requests;
        var msg := socket.Recv();
        if msg.None? {
          return Closed(StreamClosed);
        }
        match msg.value {
          case RecvError =>
            return Closed(ReceiveError);
          case NonText =>
            return Closed(NonTextFrame);
          case Text(prompt) =>
            if IsExit(prompt) {
              return Closed(ExitCommand);
            }
            var failure := Turn(prompt);
            if failure.Some? {
              SessionSpec.ReplFails(frames, h, s, q, engine.respond, socket.sendOk);
              return Failed(failure.value);
            }
            SessionSpec.ReplContinues(frames, h, s, q, engine.respond, socket.sendOk);
        }
      }
    }
  }

  /** The effect of the `i`-th token on the buffer and on the events sent so far. */
  lemma RelayStep(before: seq<string>, tokens: seq<string>, i: nat)
    requires i < |tokens|
    ensures Buffer(before + tokens[..i + 1]) == Absorb(Buffer(before + tokens[..i]), tokens[i])
    ensures TurnEvents(tokens[..i + 1]) == TurnEvents(tokens[..i]) + [TokenEvent(tokens[i])]
  {
    var x := before + tokens[..i + 1];
    assert x[..|x| - 1] == before + tokens[..i] && x[|x| - 1] == tokens[i];
    assert tokens[..i + 1] == tokens[..i] + [tokens[i]];
    TurnEventsAppend(tokens[..i], [tokens[i]]);
  }

  /** Relaying the first `count` tokens of batch `k`: their events extend those of
      the batches before it, and short of the whole batch they are a proper prefix
      of the stream's tokens. */
  lemma BatchAdvance(all: seq<seq<string>>, k: nat, count: nat)
    requires k < |all| && count <= |all[k]|
    ensures var pre := Flatten(all[..k]) + all[k][..count];
      TurnEvents(pre) == TurnEvents(Flatten(all[..k])) + TurnEvents(all[k][..count])
      && (count == |all[k]| ==> Flatten(all[..k + 1]) == pre)
      && (count < |all[k]| ==> |pre| < |Flatten(all)| && Flatten(all)[..|pre|] == pre)
  {
    var tokens := all[k];
    TurnEventsAppend(Flatten(all[..k]), tokens[..count]);
    assert all[..k + 1] == all[..k] + [tokens];
    FlattenAppend(all[..k], tokens);
    assert all == all[..k + 1] + all[k + 1..];
    FlattenConcat(all[..k + 1], all[k + 1..]);
    assert tokens == tokens[..count] + tokens[count..];
  }

  /** `handle_socket` (src/main.rs:123-241): pull the model, then run the REPL with
      an empty history. */
  method HandleSocket(socket: Socket, engine: Engine) returns (outcome: Outcome)
    modifies socket, engine
    ensures var t := SessionSpec.Connection(engine.pullOk, old(socket.incoming), old(socket.sent),
                                            old(engine.requests), engine.respond, socket.sendOk);
      outcome == t.outcome && socket.sent == t.sent && engine.requests == t.requests
      && socket.incoming == t.unread
  {
    var pulled := engine.PullModel();
    if !pulled {
      return Failed(PullFailed);
    }
    var session := new Session(socket, engine);
    outcome := session.Repl();
  }
}
