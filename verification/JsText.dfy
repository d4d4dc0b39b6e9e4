/** JavaScript strings as sequences of UTF-16 code units, with the built-ins the sources use. */
module JsText {

  newtype CodeUnit = x: int | 0 <= x < 0x1_0000

  type Text = seq<CodeUnit>

  /** The code units of an ASCII literal. */
  function Ascii(s: string): Text { seq(|s|, i requires 0 <= i < |s| => (s[i] as int % 0x80) as CodeUnit) }

  const LF: CodeUnit := 10
  const SPACE: CodeUnit := 32

  /** The code units String.prototype.trim removes: WhiteSpace and LineTerminator of ECMA-262. */
  predicate IsSpace(c: CodeUnit) {
    || 9 <= c <= 13 || c == 32 || c == 0xA0 || c == 0x1680 || 0x2000 <= c <= 0x200A
    || c == 0x2028 || c == 0x2029 || c == 0x202F || c == 0x205F || c == 0x3000 || c == 0xFEFF
  }

  predicate AllSpace(s: Text) {
    forall i :: 0 <= i < |s| ==> IsSpace(s[i])
  }

  /** `s.trimStart()`: drops the longest blank prefix. */
  function TrimStart(s: Text): (r: Text)
    ensures |r| <= |s| && r == s[|s| - |r|..]
    ensures AllSpace(s[..|s| - |r|])
    ensures r != [] ==> !IsSpace(r[0])
  {
    if s != [] && IsSpace(s[0]) then
      var r := TrimStart(s[1..]);
      assert s[..|s| - |r|] == [s[0]] + s[1..][..|s| - 1 - |r|];
      r
    else s
  }

  /** `s.trimEnd()`: drops the longest blank suffix. */
  function TrimEnd(s: Text): (r: Text)
    ensures r <= s && AllSpace(s[|r|..])
    ensures r != [] ==> !IsSpace(r[|r| - 1])
  {
    if s != [] && IsSpace(s[|s| - 1]) then
      var r := TrimEnd(s[..|s| - 1]);
      assert s[|r|..] == s[..|s| - 1][|r|..] + [s[|s| - 1]];
      r
    else s
  }

  /** `r` is `s` with only blanks dropped, `k` of them in front. */
  ghost predicate BlanksDropped(s: Text, r: Text, k: nat) {
    k + |r| <= |s| && s[k..k + |r|] == r && AllSpace(s[..k]) && AllSpace(s[k + |r|..])
  }

  /** `s.trim()`: blank at neither end. */
  function Trim(s: Text): (r: Text)
    ensures r != [] ==> !IsSpace(r[0]) && !IsSpace(r[|r| - 1])
  {
    TrimEnd(TrimStart(s))
  }

  lemma {:induction false} BlanksAround(s: Text, t: Text, r: Text)
    requires |t| <= |s| && t == s[|s| - |t|..] && AllSpace(s[..|s| - |t|]) && r <= t && AllSpace(t[|r|..])
    ensures BlanksDropped(s, r, |s| - |t|)
  {
    var k := |s| - |t|;
    assert s[k..k + |r|] == t[..|r|] == r;
    assert s[k + |r|..] == t[|r|..];
  }

  /** Trimming loses nothing but blanks at the two ends. */
  lemma {:induction false} TrimDropsBlanks(s: Text)
    ensures BlanksDropped(s, Trim(s), |s| - |TrimStart(s)|)
  {
    var t := TrimStart(s);
    var r := TrimEnd(t);
    assert t == s[|s| - |t|..] && AllSpace(s[..|s| - |t|]);
    assert r <= t && AllSpace(t[|r|..]);
    BlanksAround(s, t, r);
  }

  /** `s.lastIndexOf(c, from)` for 0 <= from < s.length: the last occurrence at or before `from`, or -1. */
  function LastIndexOf(s: Text, c: CodeUnit, from: int): (i: int)
    requires -1 <= from < |s|
    ensures -1 <= i <= from
    ensures i >= 0 ==> s[i] == c
    ensures forall j :: i < j <= from ==> s[j] != c
    decreases from + 1
  {
    if from < 0 || s[from] == c then from else LastIndexOf(s, c, from - 1)
  }

  /** `s.indexOf(c)`: the first occurrence, or -1. */
  function IndexOf(s: Text, c: CodeUnit): (i: int)
    ensures -1 <= i < |s|
    ensures i >= 0 ==> s[i] == c && forall j :: 0 <= j < i ==> s[j] != c
    ensures i < 0 ==> c !in s
  {
    if s == [] then -1
    else if s[0] == c then 0
    else
      var i := IndexOf(s[1..], c);
      assert s == [s[0]] + s[1..];
      if i < 0 then -1 else i + 1
  }
}
