/** How the relay treats the tokens of one generation (src/main.rs:186-229): which
    event each token becomes and what text the turn leaves in `buffer`. */
module Tokens {
  import opened Protocol

  predicate IsMarker(t: string) {
    t == ThinkOpen || t == ThinkClose
  }

  /** The event one token is relayed as. */
  function TokenEvent(t: string): (e: Event)
    ensures e == Thinking <==> t == ThinkOpen
    ensures e == DoneThinking <==> t == ThinkClose
    ensures e.Token? <==> !IsMarker(t)
    ensures e.Token? ==> e.token == t
  {
    if t == ThinkOpen then Thinking
    else if t == ThinkClose then DoneThinking
    else Token(t)
  }

  /** The events a token sequence is relayed as, one per token and in order. */
  function TurnEvents(ts: seq<string>): (r: seq<Event>)
    ensures |r| == |ts|
  {
    if ts == [] then [] else [TokenEvent(ts[0])] + TurnEvents(ts[1..])
  }

  /** The tokens of a batch sequence in stream order (the `for resp in responses`
      loop nested in the stream loop). */
  function Flatten(batches: seq<seq<string>>): seq<string> {
    if batches == [] then [] else batches[0] + Flatten(batches[1..])
  }

  /** The tokens that are not markers, in order. */
  function Ordinary(ts: seq<string>): (r: seq<string>)
    ensures |r| <= |ts|
  {
    if ts == [] then [] else (if IsMarker(ts[0]) then [] else [ts[0]]) + Ordinary(ts[1..])
  }

  /** The `Token` payloads of an event sequence, in order. */
  function Payloads(evs: seq<Event>): seq<string> {
    if evs == [] then [] else (if evs[0].Token? then [evs[0].token] else []) + Payloads(evs[1..])
  }

  function Concat(ss: seq<string>): string {
    if ss == [] then "" else ss[0] + Concat(ss[1..])
  }

  /** The tokens after the last `</think>`, or all of them when there is none: the
      longest suffix free of the closing marker. */
  function AfterLastClose(ts: seq<string>): (r: seq<string>)
    ensures |r| <= |ts| && r == ts[|ts| - |r|..]
    ensures ThinkClose !in r
    ensures |r| < |ts| ==> ts[|ts| - |r| - 1] == ThinkClose
  {
    if ts == [] then []
    else if ThinkClose in ts[1..] then AfterLastClose(ts[1..])
    else if ts[0] == ThinkClose then ts[1..]
    else ts
  }

  /** The buffer after one more token (src/main.rs:190-216): `<think>` leaves it,
      `</think>` clears it, any other token is appended. */
  function Absorb(buffer: string, token: string): string {
    if token == ThinkClose then "" else if token == ThinkOpen then buffer else buffer + token
  }

  /** The buffer after relaying `ts` from an empty one. */
  function Buffer(ts: seq<string>): string {
    if ts == [] then "" else Absorb(Buffer(ts[..|ts| - 1]), ts[|ts| - 1])
  }

  /** The reply text a turn stores: the ordinary tokens after the last `</think>`. */
  function VisibleText(ts: seq<string>): string {
    Concat(Ordinary(AfterLastClose(ts)))
  }

  lemma {:induction false} FlattenAppend(batches: seq<seq<string>>, b: seq<string>)
    ensures Flatten(batches + [b]) == Flatten(batches) + b
  {
    if batches != [] {
      assert (batches + [b])[1..] == batches[1..] + [b];
      FlattenAppend(batches[1..], b);
    }
  }

  /** One event per token, each the event of its token. */
  lemma {:induction false} TurnEventsPointwise(ts: seq<string>)
    ensures forall i :: 0 <= i < |ts| ==> TurnEvents(ts)[i] == TokenEvent(ts[i])
  {
    if ts != [] {
      TurnEventsPointwise(ts[1..]);
    }
  }

  /** The ordinary tokens are tokens of the input that are not markers. */
  lemma {:induction false} OrdinaryTokens(ts: seq<string>)
    ensures forall t :: t in Ordinary(ts) ==> t in ts && !IsMarker(t)
  {
    if ts != [] {
      OrdinaryTokens(ts[1..]);
    }
  }

  lemma {:induction false} FlattenConcat(a: seq<seq<string>>, b: seq<seq<string>>)
    ensures Flatten(a + b) == Flatten(a) + Flatten(b)
  {
    if a == [] {
      assert a + b == b;
    } else {
      assert (a + b)[1..] == a[1..] + b;
      FlattenConcat(a[1..], b);
    }
  }

  lemma TurnEventsAppend(a: seq<string>, b: seq<string>)
    ensures TurnEvents(a + b) == TurnEvents(a) + TurnEvents(b)
  {
    TurnEventsPointwise(a + b);
    TurnEventsPointwise(a);
    TurnEventsPointwise(b);
    assert forall i :: 0 <= i < |a + b| ==> TurnEvents(a + b)[i] == (TurnEvents(a) + TurnEvents(b))[i];
  }

  lemma {:induction false} OrdinaryAppend(a: seq<string>, b: seq<string>)
    ensures Ordinary(a + b) == Ordinary(a) + Ordinary(b)
  {
    if a != [] {
      assert (a + b)[0] == a[0] && (a + b)[1..] == a[1..] + b;
      OrdinaryAppend(a[1..], b);
      var head := if IsMarker(a[0]) then [] else [a[0]];
      assert Ordinary(a) == head + Ordinary(a[1..]);
      assert Ordinary(a + b) == head + Ordinary(a[1..] + b);
    } else {
      assert a + b == b;
    }
  }

  lemma {:induction false} ConcatAppend(ss: seq<string>, s: string)
    ensures Concat(ss + [s]) == Concat(ss) + s
  {
    if ss != [] {
      assert (ss + [s])[1..] == ss[1..] + [s];
      ConcatAppend(ss[1..], s);
    }
  }

  /** The `Token` payloads relayed for a token sequence are exactly its ordinary
      tokens, in stream order: markers are never relayed as `Token`. */
  lemma {:induction false} PayloadsAreOrdinaryTokens(ts: seq<string>)
    ensures Payloads(TurnEvents(ts)) == Ordinary(ts)
  {
    if ts != [] {
      PayloadsAreOrdinaryTokens(ts[1..]);
      assert TurnEvents(ts)[1..] == TurnEvents(ts[1..]);
    }
  }

  /** No token is relayed as `Done`: only the end of a completed turn is. */
  lemma {:induction false} TokensNeverDone(ts: seq<string>)
    ensures Done !in TurnEvents(ts)
  {
    if ts != [] {
      TokensNeverDone(ts[1..]);
    }
  }

  /** Each `<think>` yields exactly one `Thinking`, each `</think>` exactly one
      `DoneThinking`, and no marker travels as a `Token`. */
  lemma {:induction false} MarkerEvents(ts: seq<string>)
    ensures multiset(TurnEvents(ts))[Thinking] == multiset(ts)[ThinkOpen]
    ensures multiset(TurnEvents(ts))[DoneThinking] == multiset(ts)[ThinkClose]
    ensures Token(ThinkOpen) !in TurnEvents(ts) && Token(ThinkClose) !in TurnEvents(ts)
  {
    if ts != [] {
      MarkerEvents(ts[1..]);
      assert ts == [ts[0]] + ts[1..];
      assert TurnEvents(ts) == [TokenEvent(ts[0])] + TurnEvents(ts[1..]);
    }
  }

  /** The suffix characterised by AfterLastClose's contract is unique. */
  lemma {:induction false} AfterLastCloseUnique(ts: seq<string>, r: seq<string>)
    requires |r| <= |ts| && r == ts[|ts| - |r|..]
    requires ThinkClose !in r
    requires |r| < |ts| ==> ts[|ts| - |r| - 1] == ThinkClose
    ensures AfterLastClose(ts) == r
  {
    if ts != [] && ThinkClose in ts[1..] {
      var i :| 0 <= i < |ts[1..]| && ts[1..][i] == ThinkClose;
      assert ts[i + 1] == ThinkClose;
      assert |r| < |ts| - 1;
      var u := ts[1..];
      assert r == u[|u| - |r|..];
      assert u[|u| - |r| - 1] == ts[|ts| - |r| - 1];
      AfterLastCloseUnique(u, r);
    }
  }

  /** Appending a token moves the last-close suffix: `</think>` empties it, any
      other token extends it. */
  lemma AfterLastCloseStep(ts: seq<string>, t: string)
    ensures AfterLastClose(ts + [t]) == if t == ThinkClose then [] else AfterLastClose(ts) + [t]
  {
    var x := ts + [t];
    if t == ThinkClose {
      AfterLastCloseUnique(x, []);
    } else {
      var a := AfterLastClose(ts);
      var r := a + [t];
      assert r == x[|x| - |r|..];
      assert ThinkClose !in r;
      AfterLastCloseUnique(x, r);
    }
  }

  lemma OrdinarySnoc(ts: seq<string>, t: string)
    ensures Ordinary(ts + [t]) == if IsMarker(t) then Ordinary(ts) else Ordinary(ts) + [t]
  {
    OrdinaryAppend(ts, [t]);
    assert Ordinary([t]) == (if IsMarker(t) then [] else [t]) + Ordinary([]);
  }

  /** The buffer update of one token (src/main.rs:190-216): `<think>` leaves it,
      `</think>` clears it, any other token is appended. */
  lemma VisibleTextStep(ts: seq<string>, t: string)
    ensures VisibleText(ts + [t]) ==
      if t == ThinkClose then "" else if t == ThinkOpen then VisibleText(ts) else VisibleText(ts) + t
  {
    AfterLastCloseStep(ts, t);
    var a := AfterLastClose(ts);
    if t == ThinkClose {
      assert VisibleText(ts + [t]) == Concat(Ordinary([]));
    } else {
      assert VisibleText(ts + [t]) == Concat(Ordinary(a + [t]));
      OrdinarySnoc(a, t);
      if t != ThinkOpen {
        ConcatAppend(Ordinary(a), t);
      }
    }
  }

  /** The buffer holds exactly the ordinary tokens after the last `</think>`. */
  lemma {:induction false} BufferIsVisibleText(ts: seq<string>)
    ensures Buffer(ts) == VisibleText(ts)
  {
    if ts != [] {
      var prefix := ts[..|ts| - 1];
      BufferIsVisibleText(prefix);
      assert ts == prefix + [ts[|ts| - 1]];
      VisibleTextStep(prefix, ts[|ts| - 1]);
    }
  }

  /** What precedes the last `</think>` (the reasoning) never reaches the stored text. */
  lemma ReasoningDropped(reasoning: seq<string>, answer: seq<string>)
    requires ThinkClose !in answer
    ensures VisibleText(reasoning + [ThinkClose] + answer) == Concat(Ordinary(answer))
  {
    var x := reasoning + [ThinkClose] + answer;
    assert answer == x[|x| - |answer|..];
    assert x[|x| - |answer| - 1] == ThinkClose;
    AfterLastCloseUnique(x, answer);
  }

  /** Without a closing marker every ordinary token is stored, reasoning included. */
  lemma NoCloseKeepsAll(ts: seq<string>)
    requires ThinkClose !in ts
    ensures VisibleText(ts) == Concat(Ordinary(ts))
  {
    AfterLastCloseUnique(ts, ts);
  }

  /** `<think>`, `reasoning`, `</think>`, `Answer` stores `Answer`. */
  lemma VisibleTextExample()
    ensures VisibleText([ThinkOpen, "reasoning", ThinkClose, "Answer"]) == "Answer"
  {
    assert [ThinkOpen, "reasoning", ThinkClose, "Answer"] == [ThinkOpen, "reasoning"] + [ThinkClose] + ["Answer"];
    ReasoningDropped([ThinkOpen, "reasoning"], ["Answer"]);
    assert Ordinary(["Answer"]) == ["Answer"];
  }
}
