/** The message splitter of the Telegram gateway. */
module ChunkText {
  import opened JsText

  const PREVIEW_LIMIT: nat := 3900

  /** "Completed without a text response." */
  function Fallback(): (r: Text)
    ensures |r| == 34 && !IsSpace(r[33])
  {
    [67, 111, 109, 112, 108, 101, 116, 101, 100, 32, 119, 105, 116, 104, 111, 117, 116, 32, 97, 32,
     116, 101, 120, 116, 32, 114, 101, 115, 112, 111, 110, 115, 101, 46]
  }

  /** What is split: the trimmed text, or the fallback sentence when nothing is left. */
  function Body(text: Text): (r: Text)
    ensures r != [] && !IsSpace(r[|r| - 1])
  {
    var t := Trim(text);
    if t != [] then t else Fallback()
  }

  /** Chunks with the dropped gaps put back between them. */
  ghost function Weave(chunks: seq<Text>, gaps: seq<Text>): Text
    requires |chunks| == |gaps| + 1
  {
    if gaps == [] then chunks[0] else chunks[0] + gaps[0] + Weave(chunks[1..], gaps[1..])
  }

  ghost predicate Absent(c: CodeUnit, s: Text, lo: nat, hi: nat)
    requires hi < |s|
  {
    forall i :: lo <= i <= hi ==> s[i] != c
  }

  /** Cut at the last newline of the upper half of the window, else at its last space, else at the limit. */
  ghost predicate BestCut(s: Text, b: nat)
    requires |s| > PREVIEW_LIMIT
  {
    var half := PREVIEW_LIMIT / 2;
    && half <= b <= PREVIEW_LIMIT
    && if s[b] == LF && Absent(LF, s, b + 1, PREVIEW_LIMIT) then true
       else Absent(LF, s, half, PREVIEW_LIMIT) &&
            if s[b] == SPACE && Absent(SPACE, s, b + 1, PREVIEW_LIMIT) then true
            else Absent(SPACE, s, half, PREVIEW_LIMIT) && b == PREVIEW_LIMIT
  }

  /** `chunks` splits `s`: nothing but blanks is lost, every chunk fits, every cut is the best one. */
  ghost predicate Splits(s: Text, chunks: seq<Text>, gaps: seq<Text>) {
    && |chunks| == |gaps| + 1
    && s == Weave(chunks, gaps)
    && (forall i :: 0 <= i < |gaps| ==> AllSpace(gaps[i]))
    && (forall i :: 0 <= i < |chunks| ==> 1 <= |chunks[i]| <= PREVIEW_LIMIT)
    && (forall i :: 0 <= i < |gaps| ==> CutAt(chunks, gaps, i))
  }

  ghost predicate CutAt(chunks: seq<Text>, gaps: seq<Text>, i: nat)
    requires |chunks| == |gaps| + 1 && i < |gaps|
  {
    var rest := Weave(chunks[i..], gaps[i..]);
    |rest| > PREVIEW_LIMIT && BestCut(rest, |chunks[i]|)
  }

  lemma {:induction false} WeaveAppend(chunks: seq<Text>, gaps: seq<Text>, rest: Text, head: Text, gap: Text,
                                       tail: Text)
    requires |chunks| == |gaps| && rest == head + gap + tail
    ensures Weave(chunks + [rest], gaps) == Weave(chunks + [head, tail], gaps + [gap])
  {
    if chunks == [] {
      assert [head, tail][1..] == [tail];
      assert ([] + [gap])[1..] == [];
    } else {
      WeaveAppend(chunks[1..], gaps[1..], rest, head, gap, tail);
      assert (chunks + [rest])[1..] == chunks[1..] + [rest];
      assert (chunks + [head, tail])[1..] == chunks[1..] + [head, tail];
      assert (gaps + [gap])[1..] == gaps[1..] + [gap];
    }
  }

  /** Extending the split at its end leaves the earlier cuts as good as they were. */
  lemma CutsSurvive(chunks: seq<Text>, gaps: seq<Text>, rest: Text, head: Text, gap: Text, tail: Text)
    requires |chunks| == |gaps| && rest == head + gap + tail
    requires |rest| > PREVIEW_LIMIT && BestCut(rest, |head|)
    requires forall i :: 0 <= i < |gaps| ==> CutAt(chunks + [rest], gaps, i)
    ensures forall i :: 0 <= i < |gaps| + 1 ==> CutAt(chunks + [head, tail], gaps + [gap], i)
  {
    var c0, c1, g1 := chunks + [rest], chunks + [head, tail], gaps + [gap];
    forall i | 0 <= i < |gaps| + 1 ensures CutAt(c1, g1, i) {
      WeaveAppend(chunks[i..], gaps[i..], rest, head, gap, tail);
      assert c1[i..] == chunks[i..] + [head, tail] && g1[i..] == gaps[i..] + [gap];
      if i < |gaps| {
        assert CutAt(c0, gaps, i) && c0[i..] == chunks[i..] + [rest];
        assert c1[i] == c0[i] == chunks[i];
      } else {
        assert chunks[i..] + [rest] == [rest] && gaps[i..] == [];
        assert c1[i] == head;
      }
    }
  }

  /** The loop's state: everything cut so far is final, `rest` is still to be split. */
  ghost predicate Partial(s: Text, chunks: seq<Text>, gaps: seq<Text>, rest: Text) {
    && |chunks| == |gaps|
    && s == Weave(chunks + [rest], gaps)
    && rest != [] && !IsSpace(rest[|rest| - 1])
    && (forall i :: 0 <= i < |gaps| ==> AllSpace(gaps[i]))
    && (forall i :: 0 <= i < |chunks| ==> 1 <= |chunks[i]| <= PREVIEW_LIMIT)
    && (forall i :: 0 <= i < |gaps| ==> CutAt(chunks + [rest], gaps, i))
  }

  lemma TailNotBlank(rest: Text, b: nat, gap: Text, tail: Text)
    requires b < |rest| && !IsSpace(rest[|rest| - 1])
    requires rest[b..] == gap + tail && AllSpace(gap)
    ensures tail != [] && tail[|tail| - 1] == rest[|rest| - 1]
    ensures rest == rest[..b] + gap + tail
  {
    var after := rest[b..];
    assert after[|after| - 1] == rest[|rest| - 1];
    assert gap != [] ==> IsSpace(after[|gap| - 1]);
    assert tail != [] ==> after[|after| - 1] == tail[|tail| - 1];
    assert rest == rest[..b] + after;
  }

  lemma CutExtends(s: Text, chunks: seq<Text>, gaps: seq<Text>, rest: Text, b: nat, gap: Text, tail: Text)
    requires Partial(s, chunks, gaps, rest) && |rest| > PREVIEW_LIMIT && BestCut(rest, b)
    requires rest[b..] == gap + tail && AllSpace(gap)
    ensures Partial(s, chunks + [rest[..b]], gaps + [gap], tail)
  {
    var head := rest[..b];
    TailNotBlank(rest, b, gap, tail);
    WeaveAppend(chunks, gaps, rest, head, gap, tail);
    CutsSurvive(chunks, gaps, rest, head, gap, tail);
    assert chunks + [head, tail] == (chunks + [head]) + [tail];
  }

  lemma SplitStarts(s: Text)
    requires s != [] && !IsSpace(s[|s| - 1])
    ensures Partial(s, [], [], s)
  {
    assert [] + [s] == [s];
  }

  lemma SplitEnds(s: Text, chunks: seq<Text>, gaps: seq<Text>, rest: Text)
    requires Partial(s, chunks, gaps, rest) && |rest| <= PREVIEW_LIMIT
    ensures Splits(s, chunks + [rest], gaps)
  {}

  /** Where `chunkText` cuts. */
  method Boundary(s: Text) returns (boundary: nat)
    requires |s| > PREVIEW_LIMIT
    ensures BestCut(s, boundary)
  {
    var at := LastIndexOf(s, LF, PREVIEW_LIMIT);
    if at < PREVIEW_LIMIT / 2 { at := LastIndexOf(s, SPACE, PREVIEW_LIMIT); }
    if at < PREVIEW_LIMIT / 2 { at := PREVIEW_LIMIT; }
    boundary := at;
  }

  /** The loop of `chunkText`, on a body that does not end in a blank. */
  method SplitBody(body: Text) returns (chunks: seq<Text>, ghost gaps: seq<Text>)
    requires body != [] && !IsSpace(body[|body| - 1])
    ensures Splits(body, chunks, gaps)
  {
    chunks, gaps := [], [];
    var remaining := body;
    SplitStarts(body);
    while |remaining| > PREVIEW_LIMIT
      invariant Partial(body, chunks, gaps, remaining)
      decreases |remaining|
    {
      var boundary := Boundary(remaining);
      var after := remaining[boundary..];
      var tail := TrimStart(after);
      ghost var gap := after[..|after| - |tail|];
      assert after == gap + tail;
      CutExtends(body, chunks, gaps, remaining, boundary, gap, tail);
      chunks, gaps := chunks + [remaining[..boundary]], gaps + [gap];
      remaining := tail;
    }
    SplitEnds(body, chunks, gaps, remaining);
    chunks := chunks + [remaining];
  }

  /** A blank text gives the fallback sentence, any other loses the blanks at its two ends and nothing else. */
  lemma BodyOfText(text: Text)
    ensures if AllSpace(text) then Body(text) == Fallback()
            else BlanksDropped(text, Body(text), |text| - |TrimStart(text)|)
  {
    TrimDropsBlanks(text);
    var k, t := |text| - |TrimStart(text)|, Trim(text);
    if t == [] {
      assert text == text[..k] + text[k..];
    } else {
      assert text[k] == t[0];
    }
  }

  /** `chunkText`. */
  method Chunk(text: Text) returns (chunks: seq<Text>)
    ensures exists gaps :: Splits(Body(text), chunks, gaps)
    ensures forall i :: 0 <= i < |chunks| ==> 1 <= |chunks[i]| <= PREVIEW_LIMIT
    ensures if AllSpace(text) then Body(text) == Fallback()
            else BlanksDropped(text, Body(text), |text| - |TrimStart(text)|)
  {
    BodyOfText(text);
    ghost var gaps;
    chunks, gaps := SplitBody(Body(text));
  }
}
