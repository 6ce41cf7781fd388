/** The history context of each generation request (src/main.rs:159-161): the
    history as compact JSON in the shape `serde_json::to_string` gives a
    `Vec<MessageType>` (`[{"User":"..."},{"DeepSeekR1":"..."}]`), wrapped in a
    fenced block and followed by the raw prompt. A parser stands beside the
    encoder as its inverse, so the encoding is shown to lose nothing. */
module HistoryJson {
  import opened Protocol

  const HexDigits: string := "0123456789abcdef"
  const UserKey: string := "{\"User\":"
  const ReplyKey: string := "{\"DeepSeekR1\":"
  const Header: string := "```CHAT_HISTORY\n"
  const Separator: string := "\n```\n\n\n"

  /** serde_json's escape of one character inside a string literal: quote,
      backslash and the control characters are escaped, everything else is kept. */
  function EscapeChar(c: char): (r: string)
    ensures r == [c] <==> c != '"' && c != '\\' && c >= ' '
    ensures r != [c] ==> |r| >= 2 && r[0] == '\\'
  {
    if c == '"' then "\\\""
    else if c == '\\' then "\\\\"
    else if c == '\U{8}' then "\\b"
    else if c == '\U{C}' then "\\f"
    else if c == '\n' then "\\n"
    else if c == '\r' then "\\r"
    else if c == '\t' then "\\t"
    else if c < ' ' then "\\u00" + [HexDigits[c as int / 16], HexDigits[c as int % 16]]
    else [c]
  }

  function Escape(s: string): string {
    if s == [] then "" else EscapeChar(s[0]) + Escape(s[1..])
  }

  function EncodeString(s: string): string {
    "\"" + Escape(s) + "\""
  }

  function EncodeTurn(m: MessageType): string {
    match m
    case User(t) => UserKey + EncodeString(t) + "}"
    case DeepSeekR1(t) => ReplyKey + EncodeString(t) + "}"
  }

  function EncodeItems(h: seq<MessageType>): string
    requires h != []
  {
    if |h| == 1 then EncodeTurn(h[0]) else EncodeTurn(h[0]) + "," + EncodeItems(h[1..])
  }

  /** `serde_json::to_string(&history)`. */
  function EncodeHistory(h: seq<MessageType>): string {
    if h == [] then "[]" else "[" + EncodeItems(h) + "]"
  }

  /** The prompt sent to the engine (src/main.rs:161). */
  function AugmentedPrompt(history: seq<MessageType>, prompt: string): string {
    Header + EncodeHistory(history) + Separator + prompt
  }

  // ---- the inverse: a parser for exactly this encoding ----

  function HexValue(d: char): (r: Option<nat>)
    ensures r.Some? ==> r.value < 16
  {
    if '0' <= d <= '9' then Some(d as int - '0' as int)
    else if 'a' <= d <= 'f' then Some(d as int - 'a' as int + 10)
    else None
  }

  /** The rest of `s` after `prefix`, if `s` starts with it. */
  function Expect(prefix: string, s: string): (r: Option<string>)
    ensures r.Some? ==> s == prefix + r.value
  {
    if |prefix| <= |s| && s[..|prefix|] == prefix then Some(s[|prefix|..]) else None
  }

  function Cons(c: char, r: Option<(string, string)>): Option<(string, string)> {
    match r
    case None => None
    case Some((t, rest)) => Some(([c] + t, rest))
  }

  /** Reads one escape sequence, `s` being what follows the backslash. */
  function Unescape(s: string): (r: Option<(char, string)>)
    ensures r.Some? ==> |r.value.1| < |s|
  {
    if s == [] then None
    else if s[0] == '"' then Some(('"', s[1..]))
    else if s[0] == '\\' then Some(('\\', s[1..]))
    else if s[0] == 'b' then Some(('\U{8}', s[1..]))
    else if s[0] == 'f' then Some(('\U{C}', s[1..]))
    else if s[0] == 'n' then Some(('\n', s[1..]))
    else if s[0] == 'r' then Some(('\r', s[1..]))
    else if s[0] == 't' then Some(('\t', s[1..]))
    else if |s| >= 5 && s[..3] == "u00" && HexValue(s[3]).Some? && HexValue(s[4]).Some? then
      Some(((HexValue(s[3]).value * 16 + HexValue(s[4]).value) as char, s[5..]))
    else None
  }

  /** Reads the body of a string literal through its closing quote; yields the
      text and what follows the quote. */
  function ParseChars(s: string): (r: Option<(string, string)>)
    ensures r.Some? ==> |r.value.1| < |s|
    decreases |s|
  {
    if s == [] then None
    else if s[0] == '"' then Some(("", s[1..]))
    else if s[0] != '\\' then Cons(s[0], ParseChars(s[1..]))
    else match Unescape(s[1..])
      case None => None
      case Some((c, after)) => Cons(c, ParseChars(after))
  }

  function ParseString(s: string): (r: Option<(string, string)>)
    ensures r.Some? ==> |r.value.1| < |s|
  {
    match Expect("\"", s)
    case None => None
    case Some(body) => ParseChars(body)
  }

  function ParseTurn(s: string): (r: Option<(MessageType, string)>)
    ensures r.Some? ==> |r.value.1| < |s|
  {
    var key := if Expect(UserKey, s).Some? then UserKey else ReplyKey;
    match Expect(key, s)
    case None => None
    case Some(value) =>
      match ParseString(value)
      case None => None
      case Some((t, after)) =>
        match Expect("}", after)
        case None => None
        case Some(rest) => Some((if key == UserKey then User(t) else DeepSeekR1(t), rest))
  }

  /** Reads `item (, item)* ]`. */
  function ParseItems(s: string): (r: Option<(seq<MessageType>, string)>)
    decreases |s|
  {
    match ParseTurn(s)
    case None => None
    case Some((m, after)) =>
      if Expect(",", after).Some? then
        match ParseItems(Expect(",", after).value)
        case None => None
        case Some((ms, rest)) => Some(([m] + ms, rest))
      else
        match Expect("]", after)
        case None => None
        case Some(rest) => Some(([m], rest))
  }

  function ParseHistory(s: string): Option<(seq<MessageType>, string)> {
    if Expect("[]", s).Some? then Some(([], Expect("[]", s).value))
    else match Expect("[", s)
      case None => None
      case Some(items) => ParseItems(items)
  }

  function ParseAugmented(s: string): Option<(seq<MessageType>, string)> {
    match Expect(Header, s)
    case None => None
    case Some(body) =>
      match ParseHistory(body)
      case None => None
      case Some((h, after)) =>
        match Expect(Separator, after)
        case None => None
        case Some(prompt) => Some((h, prompt))
  }

  // ---- round trips ----

  lemma ExpectPrefix(prefix: string, rest: string)
    ensures Expect(prefix, prefix + rest) == Some(rest)
  {
    assert (prefix + rest)[..|prefix|] == prefix;
  }

  lemma HexDigitValue(k: nat)
    requires k < 16
    ensures HexValue(HexDigits[k]) == Some(k)
  {
  }

  /** Reading back one escaped character yields that character. */
  lemma ParseEscapedChar(c: char, tail: string)
    ensures ParseChars(EscapeChar(c) + tail) == Cons(c, ParseChars(tail))
  {
    var x := EscapeChar(c) + tail;
    if c < ' ' && c != '\U{8}' && c != '\U{C}' && c != '\n' && c != '\r' && c != '\t' {
      var hi, lo := c as int / 16, c as int % 16;
      HexDigitValue(hi);
      HexDigitValue(lo);
      var u := x[1..];
      assert u == "u00" + [HexDigits[hi], HexDigits[lo]] + tail;
      assert u[..3] == "u00" && u[3] == HexDigits[hi] && u[4] == HexDigits[lo];
      assert u[5..] == tail;
      assert Unescape(u) == Some((c, tail));
    } else if EscapeChar(c) != [c] {
      assert x[1..][1..] == tail;
    } else {
      assert x[1..] == tail;
    }
  }

  lemma EscapeCons(s: string, rest: string)
    requires s != []
    ensures Escape(s) + "\"" + rest == EscapeChar(s[0]) + (Escape(s[1..]) + "\"" + rest)
  {
  }

  lemma {:induction false} ParseEscaped(s: string, rest: string)
    ensures ParseChars(Escape(s) + "\"" + rest) == Some((s, rest))
  {
    if s == [] {
      assert Escape(s) + "\"" + rest == "\"" + rest;
    } else {
      EscapeCons(s, rest);
      ParseEscapedChar(s[0], Escape(s[1..]) + "\"" + rest);
      ParseEscaped(s[1..], rest);
      assert [s[0]] + s[1..] == s;
    }
  }

  lemma ParseEncodedString(t: string, rest: string)
    ensures ParseString(EncodeString(t) + rest) == Some((t, rest))
  {
    assert EncodeString(t) + rest == "\"" + (Escape(t) + "\"" + rest);
    ExpectPrefix("\"", Escape(t) + "\"" + rest);
    ParseEscaped(t, rest);
  }

  lemma ParseEncodedTurn(m: MessageType, rest: string)
    ensures ParseTurn(EncodeTurn(m) + rest) == Some((m, rest))
  {
    var key := if m.User? then UserKey else ReplyKey;
    var x := EncodeTurn(m) + rest;
    assert x == key + (EncodeString(m.text) + ("}" + rest));
    ExpectPrefix(key, EncodeString(m.text) + ("}" + rest));
    if m.DeepSeekR1? {
      assert x[1] != UserKey[1] || x[2] != UserKey[2];
      assert Expect(UserKey, x).None?;
    }
    ParseEncodedString(m.text, "}" + rest);
    ExpectPrefix("}", rest);
  }

  lemma ParseLastItem(m: MessageType, rest: string)
    ensures ParseItems(EncodeTurn(m) + ("]" + rest)) == Some(([m], rest))
  {
    ParseEncodedTurn(m, "]" + rest);
    ExpectPrefix("]", rest);
    assert Expect(",", "]" + rest).None?;
  }

  lemma ParseNextItem(m: MessageType, tail: string)
    ensures ParseItems(EncodeTurn(m) + ("," + tail)) ==
      match ParseItems(tail)
      case None => None
      case Some((ms, rest)) => Some(([m] + ms, rest))
  {
    ParseEncodedTurn(m, "," + tail);
    ExpectPrefix(",", tail);
  }

  lemma EncodeItemsCons(h: seq<MessageType>, rest: string)
    requires |h| > 1
    ensures EncodeItems(h) + "]" + rest == EncodeTurn(h[0]) + ("," + (EncodeItems(h[1..]) + "]" + rest))
  {
    Regroup(EncodeTurn(h[0]), ",", EncodeItems(h[1..]), "]", rest);
  }

  lemma Regroup(a: string, b: string, c: string, d: string, e: string)
    ensures a + b + c + d + e == a + (b + (c + d + e))
  {
  }

  lemma {:induction false} ParseEncodedItems(h: seq<MessageType>, rest: string)
    requires h != []
    ensures ParseItems(EncodeItems(h) + "]" + rest) == Some((h, rest))
  {
    if |h| == 1 {
      assert EncodeItems(h) + "]" + rest == EncodeTurn(h[0]) + ("]" + rest);
      ParseLastItem(h[0], rest);
      assert h == [h[0]];
    } else {
      EncodeItemsCons(h, rest);
      ParseNextItem(h[0], EncodeItems(h[1..]) + "]" + rest);
      ParseEncodedItems(h[1..], rest);
      assert [h[0]] + h[1..] == h;
    }
  }

  /** Parsing the encoded history gives back the history and leaves what follows. */
  lemma ParseEncodedHistory(h: seq<MessageType>, rest: string)
    ensures ParseHistory(EncodeHistory(h) + rest) == Some((h, rest))
  {
    var x := EncodeHistory(h) + rest;
    if h == [] {
      ExpectPrefix("[]", rest);
    } else {
      assert x == "[" + (EncodeItems(h) + "]" + rest);
      ParseEncodedTurn(h[0], "");
      var first := EncodeTurn(h[0]);
      assert |first| >= 2 && first[0] == '{';
      assert |h| == 1 ==> EncodeItems(h) == first;
      assert |h| > 1 ==> EncodeItems(h) == first + "," + EncodeItems(h[1..]);
      assert x[1] == '{';
      assert Expect("[]", x).None?;
      ExpectPrefix("[", EncodeItems(h) + "]" + rest);
      ParseEncodedItems(h, rest);
    }
  }

  /** The engine's prompt splits back into the history it was built from and the
      raw prompt. */
  lemma ParseAugmentedPrompt(h: seq<MessageType>, p: string)
    ensures ParseAugmented(AugmentedPrompt(h, p)) == Some((h, p))
  {
    var x := AugmentedPrompt(h, p);
    assert x == Header + (EncodeHistory(h) + (Separator + p));
    ExpectPrefix(Header, EncodeHistory(h) + (Separator + p));
    ParseEncodedHistory(h, Separator + p);
    ExpectPrefix(Separator, p);
  }

  /** Different histories or prompts never give the same engine prompt. */
  lemma AugmentedPromptInjective(h1: seq<MessageType>, p1: string, h2: seq<MessageType>, p2: string)
    requires AugmentedPrompt(h1, p1) == AugmentedPrompt(h2, p2)
    ensures h1 == h2 && p1 == p2
  {
    ParseAugmentedPrompt(h1, p1);
    ParseAugmentedPrompt(h2, p2);
  }
}
