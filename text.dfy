/** Rust's `str::trim` over `char::is_whitespace`, and the relay's exit command. */
module Text {

  /** Unicode `White_Space`, the set `char::is_whitespace` accepts. */
  predicate IsWhitespace(c: char) {
    ('\t' <= c <= '\r') || c == ' ' || c == '\U{85}' || c == '\U{A0}' || c == '\U{1680}'
    || ('\U{2000}' <= c <= '\U{200A}') || c == '\U{2028}' || c == '\U{2029}'
    || c == '\U{202F}' || c == '\U{205F}' || c == '\U{3000}'
  }

  predicate AllWhitespace(s: string) {
    forall i :: 0 <= i < |s| ==> IsWhitespace(s[i])
  }

  /** Drops leading whitespace: the result is the longest suffix that does not start with it. */
  function TrimStart(s: string): (r: string)
    ensures |r| <= |s| && r == s[|s| - |r|..]
    ensures AllWhitespace(s[..|s| - |r|])
    ensures r != [] ==> !IsWhitespace(r[0])
  {
    if s != [] && IsWhitespace(s[0]) then TrimStart(s[1..]) else s
  }

  /** Drops trailing whitespace: the result is the longest prefix that does not end with it. */
  function TrimEnd(s: string): (r: string)
    ensures |r| <= |s| && r == s[..|r|]
    ensures AllWhitespace(s[|r|..])
    ensures r != [] ==> !IsWhitespace(r[|r| - 1])
  {
    if s != [] && IsWhitespace(s[|s| - 1]) then
      var r := TrimEnd(s[..|s| - 1]);
      SnocSlice(s, |r|);
      WhitespaceJoin(s[..|s| - 1][|r|..], [s[|s| - 1]]);
      r
    else s
  }

  lemma SnocSlice(s: string, k: nat)
    requires k < |s|
    ensures s[k..] == s[..|s| - 1][k..] + [s[|s| - 1]]
  {
  }

  lemma WhitespaceJoin(a: string, b: string)
    requires AllWhitespace(a) && AllWhitespace(b)
    ensures AllWhitespace(a + b)
  {
    forall i | 0 <= i < |a + b| ensures IsWhitespace((a + b)[i]) {
      if i < |a| {
        assert (a + b)[i] == a[i];
      } else {
        assert (a + b)[i] == b[i - |a|];
      }
    }
  }

  /** `str::trim`: whitespace removed at both ends. */
  function Trim(s: string): (r: string)
    ensures |r| <= |s|
    ensures r != [] ==> !IsWhitespace(r[0]) && !IsWhitespace(r[|r| - 1])
  {
    TrimEnd(TrimStart(s))
  }

  /** What `Trim` keeps is the infix that starts after the leading whitespace and
      has only whitespace after it. */
  lemma TrimIsInfix(s: string)
    ensures var r := Trim(s); var i := |s| - |TrimStart(s)|;
      i + |r| <= |s| && r == s[i..i + |r|] && AllWhitespace(s[..i]) && AllWhitespace(s[i + |r|..])
  {
    TrimmedInfix(s, TrimStart(s), Trim(s));
  }

  /** A prefix `r` of a suffix `t` of `s` is the infix of `s` at `|s| - |t|`; what
      `t` drops after `r` is what `s` has after that infix. */
  lemma TrimmedInfix(s: string, t: string, r: string)
    requires |t| <= |s| && t == s[|s| - |t|..]
    requires |r| <= |t| && r == t[..|r|]
    requires AllWhitespace(t[|r|..])
    ensures var i := |s| - |t|; r == s[i..i + |r|] && AllWhitespace(s[i + |r|..])
  {
    var i := |s| - |t|;
    assert s[i + |r|..] == t[|r|..];
  }

  /** The test at src/main.rs:155: the trimmed frame is exactly `exit`. */
  predicate IsExit(s: string) {
    Trim(s) == "exit"
  }

  /** A whitespace prefix is dropped up to the first non-whitespace character. */
  lemma TrimStartPadded(pre: string, s: string)
    requires AllWhitespace(pre)
    requires s != [] && !IsWhitespace(s[0])
    ensures TrimStart(pre + s) == s
  {
    var x := pre + s;
    var r := TrimStart(x);
    var k := |x| - |r|;
    assert x[|pre|] == s[0];
    assert k == |pre|;
  }

  /** A whitespace suffix is dropped back to the last non-whitespace character. */
  lemma TrimEndPadded(s: string, post: string)
    requires AllWhitespace(post)
    requires s != [] && !IsWhitespace(s[|s| - 1])
    ensures TrimEnd(s + post) == s
  {
    var x := s + post;
    var r := TrimEnd(x);
    assert x[|s| - 1] == s[|s| - 1];
    assert |r| == |s|;
  }

  /** `exit` with only whitespace around it is the exit command. */
  lemma PaddedExit(pre: string, post: string)
    requires AllWhitespace(pre) && AllWhitespace(post)
    ensures IsExit(pre + "exit" + post)
  {
    assert pre + "exit" + post == pre + ("exit" + post);
    TrimStartPadded(pre, "exit" + post);
    TrimEndPadded("exit", post);
  }

  /** An exit command is `exit` with only whitespace around it; with `PaddedExit`
      this makes the test an if-and-only-if. */
  lemma ExitIsPadded(s: string)
    requires IsExit(s)
    ensures var i := |s| - |TrimStart(s)|;
      i + 4 <= |s| && s[i..i + 4] == "exit" && AllWhitespace(s[..i]) && AllWhitespace(s[i + 4..])
  {
    TrimIsInfix(s);
  }

  /** `exit` with whitespace around it is the exit command. */
  lemma ExitAccepted()
    ensures IsExit("exit") && IsExit("  exit\n")
  {
    PaddedExit("", "");
    assert "" + "exit" + "" == "exit";
    PaddedExit("  ", "\n");
    assert "  " + "exit" + "\n" == "  exit\n";
  }

  /** The comparison is case-sensitive and the command must stand alone. */
  lemma ExitRejected()
    ensures !IsExit("Exit") && !IsExit("exit now") && !IsExit("")
  {
    assert !IsWhitespace('E') && TrimStart("Exit") == "Exit";
    assert !IsWhitespace('w') && TrimStart("exit now") == "exit now";
    assert |TrimEnd("exit now")| == 8;
  }
}
