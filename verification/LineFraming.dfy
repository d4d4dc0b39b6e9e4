/** Newline framing of a character stream: what the RPC reader and the proxy reader do chunk by chunk. */
module LineFraming {
  import opened Basics
  import opened JsText

  /** The complete lines of a stream, newlines removed. */
  function Lines(s: Text): (lines: seq<Text>)
    decreases |s|
  {
    var i := IndexOf(s, LF);
    if i < 0 then [] else [s[..i]] + Lines(s[i + 1..])
  }

  /** The unfinished last line. */
  function Rest(s: Text): (rest: Text)
    ensures |rest| <= |s|
    decreases |s|
  {
    var i := IndexOf(s, LF);
    if i < 0 then s else Rest(s[i + 1..])
  }

  function Concat(chunks: seq<Text>): Text {
    if chunks == [] then [] else chunks[0] + Concat(chunks[1..])
  }

  function Unlines(lines: seq<Text>): Text {
    if lines == [] then [] else lines[0] + [LF] + Unlines(lines[1..])
  }

  /** Framing loses nothing: writing the lines back and appending the rest restores the stream. */
  lemma {:induction false} FramingRoundTrip(s: Text)
    ensures Unlines(Lines(s)) + Rest(s) == s
    decreases |s|
  {
    var i := IndexOf(s, LF);
    if i >= 0 {
      var t := s[i + 1..];
      FirstLine(s, i);
      FramingRoundTrip(t);
      Reassemble(s, i, Lines(t), Unlines(Lines(t)), Rest(t));
    }
  }

  lemma {:induction false} Reassemble(s: Text, i: nat, lines: seq<Text>, u: Text, rest: Text)
    requires i < |s| && s[i] == LF && u == Unlines(lines) && u + rest == s[i + 1..]
    ensures Unlines([s[..i]] + lines) + rest == s
  {
    assert ([s[..i]] + lines)[1..] == lines;
    assert (s[..i] + [LF] + u) + rest == s[..i] + [LF] + (u + rest);
  }

  /** No line and no rest holds a newline, so the framing is the only one. */
  lemma {:induction false} FramesHoldNoNewline(s: Text)
    ensures LF !in Rest(s) && forall line :: line in Lines(s) ==> LF !in line
    decreases |s|
  {
    var i := IndexOf(s, LF);
    if i >= 0 {
      FramesHoldNoNewline(s[i + 1..]);
      FirstLine(s, i);
      forall line | line in Lines(s) ensures LF !in line {
        if line != s[..i] { assert line in Lines(s[i + 1..]); }
      }
    }
  }

  lemma {:induction false} IndexOfPrefix(a: Text, b: Text)
    ensures IndexOf(a, LF) >= 0 ==> IndexOf(a + b, LF) == IndexOf(a, LF)
  {
    if a != [] && a[0] != LF {
      IndexOfPrefix(a[1..], b);
      assert (a + b)[1..] == a[1..] + b;
    }
  }

  /** A stream may be framed in two pieces, carrying the unfinished line over. */
  lemma {:induction false} FramingSplits(a: Text, b: Text)
    ensures Lines(a + b) == Lines(a) + Lines(Rest(a) + b)
    ensures Rest(a + b) == Rest(Rest(a) + b)
    decreases |a|
  {
    var i := IndexOf(a, LF);
    if i >= 0 {
      var tail := a[i + 1..];
      FirstLine(a, i);
      FirstLineOfBoth(a, b, i);
      FramingSplits(tail, b);
      Assoc([a[..i]], Lines(tail), Lines(Rest(tail) + b));
    }
  }

  lemma {:induction false} FirstLineOfBoth(a: Text, b: Text, i: nat)
    requires IndexOf(a, LF) == i
    ensures Lines(a + b) == [a[..i]] + Lines(a[i + 1..] + b) && Rest(a + b) == Rest(a[i + 1..] + b)
  {
    IndexOfPrefix(a, b);
    FirstLine(a + b, i);
    assert (a + b)[..i] == a[..i] && (a + b)[i + 1..] == a[i + 1..] + b;
  }

  lemma {:induction false} FirstLine(s: Text, i: nat)
    requires IndexOf(s, LF) == i
    ensures Lines(s) == [s[..i]] + Lines(s[i + 1..]) && Rest(s) == Rest(s[i + 1..])
  {}
}
