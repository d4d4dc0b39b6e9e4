/** The stdout reader of the RPC process handles the lines of the stream, however the stream was chunked. */
module RpcFraming {
  import opened Basics
  import opened JsText
  import opened LineFraming
  import opened RpcProtocol

  /** Handling complete lines one by one, as if each had arrived alone. */
  function HandleLines(b: Book, lines: seq<Text>, read: Reader): Book
    decreases |lines|
  {
    if lines == [] then b else HandleLines(Handle(b, lines[0], read(lines[0])), lines[1..], read)
  }

  predicate WellFormed(lines: seq<Text>, read: Reader) {
    forall line :: line in lines ==> read(line) != Malformed
  }

  lemma {:induction false} HandleLinesAppend(b: Book, first: seq<Text>, then_: seq<Text>, read: Reader)
    ensures HandleLines(b, first + then_, read) == HandleLines(HandleLines(b, first, read), then_, read)
    decreases |first|
  {
    if first == [] {
      assert first + then_ == then_;
    } else {
      assert (first + then_)[1..] == first[1..] + then_ && (first + then_)[0] == first[0];
      HandleLinesAppend(Handle(b, first[0], read(first[0])), first[1..], then_, read);
    }
  }

  lemma {:induction false} HandleFirst(b: Book, raw: Text, later: seq<Text>, read: Reader)
    ensures HandleLines(b, [raw] + later, read) == HandleLines(Handle(b, raw, read(raw)), later, read)
  {
    assert ([raw] + later)[1..] == later;
  }

  lemma {:induction false} LaterWellFormed(raw: Text, later: seq<Text>, read: Reader)
    requires WellFormed([raw] + later, read)
    ensures read(raw) != Malformed && WellFormed(later, read)
  {
    assert ([raw] + later)[0] == raw && forall line :: line in later ==> line in [raw] + later;
  }

  /** Draining a buffer handles exactly its complete lines and keeps its unfinished one. */
  lemma {:induction false} DrainIsFraming(s: State, read: Reader)
    requires WellFormed(Lines(s.buffer), read)
    ensures Drain(s, read) == State(HandleLines(s.book, Lines(s.buffer), read), Rest(s.buffer))
    decreases |s.buffer|
  {
    var i := IndexOf(s.buffer, LF);
    if i >= 0 {
      var raw, tail := s.buffer[..i], s.buffer[i + 1..];
      LaterWellFormed(raw, Lines(tail), read);
      HandleFirst(s.book, raw, Lines(tail), read);
      DrainIsFraming(State(Handle(s.book, raw, read(raw)), tail), read);
    }
  }

  function ReceiveAll(s: State, chunks: seq<Text>, read: Reader): State
    decreases |chunks|
  {
    if chunks == [] then s else ReceiveAll(Receive(s, chunks[0], read), chunks[1..], read)
  }

  /** No chunk overfills the buffer left by the ones before it. */
  predicate Fits(buffer: Text, chunks: seq<Text>)
    decreases |chunks|
  {
    chunks == [] ||
    (|buffer| + |chunks[0]| <= MAX_STDOUT_BUFFER_CHARS && Fits(Rest(buffer + chunks[0]), chunks[1..]))
  }

  /** Some chunk is refused for the size of the buffer it meets. */
  predicate Overflows(s: State, chunks: seq<Text>, read: Reader)
    decreases |chunks|
  {
    chunks != [] &&
    (|s.buffer| + |chunks[0]| > MAX_STDOUT_BUFFER_CHARS || Overflows(Receive(s, chunks[0], read), chunks[1..], read))
  }

  /** The first chunk of a stream whose lines parse, when it fits. */
  lemma {:induction false} FirstChunk(s: State, chunks: seq<Text>, read: Reader)
    requires chunks != [] && |s.buffer| + |chunks[0]| <= MAX_STDOUT_BUFFER_CHARS
    requires WellFormed(Lines(s.buffer + Concat(chunks)), read)
    ensures var first, later := s.buffer + chunks[0], Concat(chunks[1..]);
            && LF !in Rest(first) && WellFormed(Lines(Rest(first) + later), read)
            && Receive(s, chunks[0], read) == State(HandleLines(s.book, Lines(first), read), Rest(first))
            && Lines(s.buffer + Concat(chunks)) == Lines(first) + Lines(Rest(first) + later)
            && Rest(s.buffer + Concat(chunks)) == Rest(Rest(first) + later)
  {
    var first, later := s.buffer + chunks[0], Concat(chunks[1..]);
    Assoc(s.buffer, chunks[0], later);
    FramingSplits(first, later);
    FramesHoldNoNewline(first);
    var a, b := Lines(first), Lines(Rest(first) + later);
    assert WellFormed(a, read) && WellFormed(b, read) by { assert Lines(s.buffer + Concat(chunks)) == a + b; }
    DrainIsFraming(State(s.book, first), read);
  }

  /** Whatever the chunking, the state reached is that of handling the lines of the concatenated stream. */
  lemma {:induction false} ChunkingIrrelevant(s: State, chunks: seq<Text>, read: Reader)
    requires LF !in s.buffer && Fits(s.buffer, chunks)
    requires WellFormed(Lines(s.buffer + Concat(chunks)), read)
    ensures var stream := s.buffer + Concat(chunks);
            ReceiveAll(s, chunks, read) == State(HandleLines(s.book, Lines(stream), read), Rest(stream))
    decreases |chunks|
  {
    var stream := s.buffer + Concat(chunks);
    if chunks == [] {
      assert stream == s.buffer;
      assert IndexOf(s.buffer, LF) < 0;
    } else {
      var first, later := s.buffer + chunks[0], Concat(chunks[1..]);
      var a, b := Lines(first), Lines(Rest(first) + later);
      FirstChunk(s, chunks, read);
      ChunkingIrrelevant(State(HandleLines(s.book, a, read), Rest(first)), chunks[1..], read);
      HandleLinesAppend(s.book, a, b, read);
    }
  }

  // --- the size bound ---

  /** What a refusal leaves: nothing pending, and a buffer so large that every later chunk is refused too. */
  lemma {:induction false} RefusedForGood(s: State, chunks: seq<Text>, read: Reader)
    requires |s.buffer| > MAX_STDOUT_BUFFER_CHARS && s.book.pending == map[]
    ensures var t := ReceiveAll(s, chunks, read);
            |t.buffer| > MAX_STDOUT_BUFFER_CHARS && t.book.pending == map[]
    decreases |chunks|
  {
    if chunks != [] { RefusedForGood(Receive(s, chunks[0], read), chunks[1..], read); }
  }

  /** Of a stream whose lines parse, a chunk is refused if and only if one overfills what the lines before it left. */
  lemma {:induction false} OverflowIff(s: State, chunks: seq<Text>, read: Reader)
    requires LF !in s.buffer && |s.buffer| <= MAX_STDOUT_BUFFER_CHARS
    requires WellFormed(Lines(s.buffer + Concat(chunks)), read)
    ensures var t := ReceiveAll(s, chunks, read);
            && (Overflows(s, chunks, read) <==> !Fits(s.buffer, chunks))
            && (|t.buffer| > MAX_STDOUT_BUFFER_CHARS <==> !Fits(s.buffer, chunks))
            && (!Fits(s.buffer, chunks) ==> t.book.pending == map[])
    decreases |chunks|
  {
    if chunks != [] {
      var first, later := s.buffer + chunks[0], Concat(chunks[1..]);
      if |first| > MAX_STDOUT_BUFFER_CHARS {
        RefusedForGood(Receive(s, chunks[0], read), chunks[1..], read);
      } else {
        FirstChunk(s, chunks, read);
        OverflowIff(State(HandleLines(s.book, Lines(first), read), Rest(first)), chunks[1..], read);
      }
    }
  }

  /** Two lines that fit one by one but not together. */
  ghost predicate TooLongTogether(a: Text, b: Text) {
    && LF !in a && LF !in b
    && |a| < MAX_STDOUT_BUFFER_CHARS && |b| < MAX_STDOUT_BUFFER_CHARS
    && |a| + |b| + 2 > MAX_STDOUT_BUFFER_CHARS
  }

  lemma {:induction false} LineOf(a: Text, later: Text)
    requires LF !in a
    ensures Lines(a + [LF] + later) == [a] + Lines(later) && Rest(a + [LF] + later) == Rest(later)
  {
    var s := a + [LF] + later;
    EndOfLine(a, later);
    assert s[..|a|] == a && s[|a| + 1..] == later;
  }

  lemma {:induction false} EndOfLine(a: Text, later: Text)
    requires LF !in a
    ensures IndexOf(a + [LF] + later, LF) == |a|
  {
    if a != [] {
      assert (a + [LF] + later)[1..] == a[1..] + [LF] + later;
      EndOfLine(a[1..], later);
    }
  }

  lemma {:induction false} LinesOfTwo(a: Text, b: Text)
    requires LF !in a && LF !in b
    ensures var s := a + [LF] + (b + [LF]); Lines(s) == [a, b] && Rest(s) == [] && Rest(a + [LF]) == []
  {
    OneLine(a);
    OneLine(b);
    LineOf(a, b + [LF]);
    assert [a] + [b] == [a, b];
  }

  lemma {:induction false} OneLine(a: Text)
    requires LF !in a
    ensures Lines(a + [LF]) == [a] && Rest(a + [LF]) == []
  {
    LineOf(a, []);
    assert a + [LF] + [] == a + [LF];
    assert [a] + [] == [a];
  }

  lemma {:induction false} Concats(a: Text, b: Text)
    ensures Concat([a + b]) == a + b && Concat([a, b]) == a + b
  {
    assert [a + b][1..] == [] && [a, b][1..] == [b] && [b][1..] == [];
    assert a + b + [] == a + b && b + [] == b;
  }

  lemma {:induction false} FitsInTwo(a: Text, b: Text)
    requires |a| <= MAX_STDOUT_BUFFER_CHARS && |b| <= MAX_STDOUT_BUFFER_CHARS && Rest(a) == []
    ensures Fits([], [a, b])
  {
    assert [] + a == a && [a, b][1..] == [b];
    assert Fits([], [b]) by { assert [b][1..] == []; }
  }

  lemma {:induction false} RefusedInOne(a: Text, book: Book, read: Reader)
    requires |a| > MAX_STDOUT_BUFFER_CHARS
    ensures ReceiveAll(State(book, []), [a], read) == State(RejectAll(book, ProtocolFailure), a)
  {
    assert [] + a == a && [a][1..] == [];
  }

  /**
   * The bound is on the buffer and not on lines: the same two lines are handled when they come in two chunks, and
   * refused with everything that is pending when they come in one.
   */
  lemma {:induction false} BoundIsOnTheBuffer(a: Text, b: Text, book: Book, read: Reader)
    requires TooLongTogether(a, b) && WellFormed([a, b], read)
    ensures var stream := a + [LF] + (b + [LF]); var two := [a + [LF], b + [LF]];
            && Concat([stream]) == Concat(two) && Lines(stream) == [a, b]
            && ReceiveAll(State(book, []), two, read) == State(HandleLines(book, [a, b], read), [])
            && ReceiveAll(State(book, []), [stream], read) == State(RejectAll(book, ProtocolFailure), stream)
  {
    var stream, two := a + [LF] + (b + [LF]), [a + [LF], b + [LF]];
    Concats(a + [LF], b + [LF]);
    LinesOfTwo(a, b);
    FitsInTwo(a + [LF], b + [LF]);
    assert [] + stream == stream;
    ChunkingIrrelevant(State(book, []), two, read);
    RefusedInOne(stream, book, read);
  }

  lemma {:induction false} SameLineTwice(a: Text, book: Book, read: Reader)
    requires TooLongTogether(a, a) && read(a) == Notification
    ensures ReceiveAll(State(book, []), [a + [LF], a + [LF]], read).book == book
    ensures ReceiveAll(State(book, []), [a + [LF] + (a + [LF])], read).book == RejectAll(book, ProtocolFailure)
  {
    TwoNotifications(a, book, read);
    BoundIsOnTheBuffer(a, a, book, read);
  }

  lemma {:induction false} TwoNotifications(a: Text, book: Book, read: Reader)
    requires read(a) == Notification
    ensures HandleLines(book, [a, a], read) == book
  {
    HandleFirst(book, a, [a], read);
    HandleFirst(book, a, [], read);
    assert [a] + [a] == [a, a] && [a] + [] == [a];
  }

  const LONG: Text := seq(600_000, _ => 97)

  lemma LongLine()
    ensures TooLongTogether(LONG, LONG)
  {}

  /** A line of 600000 characters, sent twice: harmless in two chunks, in one it fails every pending request. */
  lemma {:induction false} TwoLongLines(book: Book, read: Reader)
    requires read(LONG) == Notification
    ensures var line := LONG + [LF];
            && ReceiveAll(State(book, []), [line, line], read).book == book
            && ReceiveAll(State(book, []), [line + line], read).book == RejectAll(book, ProtocolFailure)
  {
    LongLine();
    SameLineTwice(LONG, book, read);
  }
}
