/** `String.prototype.trim` of ECMAScript (ECMA-262, section 22.1.3.32,
    TrimString): strip white space and line terminators from both ends. */
module JsString {

  /** The WhiteSpace (section 12.2 of ECMA-262, space separators included)
      and LineTerminator (section 12.3) code points. */
  predicate IsTrimmable(c: char) {
    || c == '\U{0009}' || c == '\U{000A}' || c == '\U{000B}' || c == '\U{000C}' || c == '\U{000D}'
    || c == ' ' || c == '\U{00A0}' || c == '\U{1680}'
    || ('\U{2000}' <= c <= '\U{200A}')
    || c == '\U{2028}' || c == '\U{2029}' || c == '\U{202F}' || c == '\U{205F}'
    || c == '\U{3000}' || c == '\U{FEFF}'
  }

  predicate AllTrimmable(s: string) {
    forall i :: 0 <= i < |s| ==> IsTrimmable(s[i])
  }

  function TrimStart(s: string): (t: string)
    ensures |t| <= |s| && t == s[|s| - |t|..]
    ensures AllTrimmable(s[..|s| - |t|])
    ensures t != [] ==> !IsTrimmable(t[0])
  {
    if s != [] && IsTrimmable(s[0]) then
      var t := TrimStart(s[1..]);
      assert s[..|s| - |t|] == [s[0]] + s[1..][..|s| - 1 - |t|];
      t
    else s
  }

  function TrimEnd(s: string): (t: string)
    ensures |t| <= |s| && t == s[..|t|]
    ensures AllTrimmable(s[|t|..])
    ensures t != [] ==> !IsTrimmable(t[|t| - 1])
  {
    if s != [] && IsTrimmable(s[|s| - 1]) then
      var t := TrimEnd(s[..|s| - 1]);
      assert s[|t|..] == s[..|s| - 1][|t|..] + [s[|s| - 1]];
      t
    else s
  }

  /** `s.trim()`: the infix of `s` between trimmable prefix and suffix, with
      no trimmable code point at either end. */
  function Trim(s: string): (t: string)
    ensures exists i, j :: 0 <= i <= j <= |s| && t == s[i..j] && AllTrimmable(s[..i]) && AllTrimmable(s[j..])
    ensures t != [] ==> !IsTrimmable(t[0]) && !IsTrimmable(t[|t| - 1])
  {
    var front := TrimStart(s);
    var t := TrimEnd(front);
    var i := |s| - |front|;
    assert t == s[i..i + |t|];
    assert s[i + |t|..] == front[|t|..];
    t
  }

  /** A string trims to nothing exactly when it is all white space, the
      condition under which the search form does nothing. */
  lemma {:induction false} TrimEmptyIffBlank(s: string)
    ensures Trim(s) == [] <==> AllTrimmable(s)
  {
    var front := TrimStart(s);
    if front != [] {
      assert front[0] == s[|s| - |front|];
    } else {
      assert s[..|s|] == s;
    }
  }

  /** Trimming twice changes nothing more. */
  lemma TrimIdempotent(s: string)
    ensures Trim(Trim(s)) == Trim(s)
  {
    var t := Trim(s);
    if t != [] {
      assert TrimStart(t) == t;
      assert TrimEnd(t) == t;
    }
  }
}
