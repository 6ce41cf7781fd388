/** Values exchanged by the per-connection chat relay: history turns, outbound
    events, inbound frames, what the inference engine answers, and how a
    session ends. */
module Protocol {

  datatype Option<+T> = None | Some(value: T)

  /** One turn of the conversation history (`MessageType` in src/main.rs). */
  datatype MessageType = User(text: string) | DeepSeekR1(text: string)

  /** An outbound event; the wire form is a JSON object tagged by `event`. */
  datatype Event = Token(token: string) | Thinking | DoneThinking | Done

  /** What one `socket.recv()` yields while the socket is open: a text frame, any
      other frame (binary, ping, pong, close), or a receive error. The end of the
      inbound stream (`recv()` returning `None`) is the end of the frame sequence. */
  datatype Frame = Text(text: string) | NonText | RecvError

  /** What the engine does with one generation request: the request fails
      outright, or a stream yields `batches` in order and then ends, with an
      error after the last batch when `failsAtEnd` holds. */
  datatype Reply = Refused | Streamed(batches: seq<seq<string>>, failsAtEnd: bool)

  /** What one `stream.next()` yields. */
  datatype Pull = Batch(tokens: seq<string>) | StreamError | EndOfStream

  /** The quiet ways a session ends with `Ok(())`. */
  datatype Stop = ExitCommand | StreamClosed | ReceiveError | NonTextFrame

  /** The ways a session ends with `Err(..)`. */
  datatype Failure = PullFailed | GenerateFailed | StreamFailed | SendFailed

  datatype Outcome = Closed(reason: Stop) | Failed(failure: Failure)

  /** The in-band markers the model uses around its reasoning. */
  const ThinkOpen: string := "<think>"
  const ThinkClose: string := "</think>"
}
