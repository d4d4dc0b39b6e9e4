/** The response reader of the streaming proxy: `data: ` lines out of network chunks. */
module ProxyReader {
  import opened Basics
  import opened JsText
  import opened LineFraming

  /** "data: " */
  function DataPrefix(): Text { [100, 97, 116, 97, 58, 32] }

  /** The payload of one line, or nothing for a line the reader skips. */
  function Payload(line: Text): Option<Text> {
    if DataPrefix() <= line && Trim(line[6..]) != [] then Some(Trim(line[6..])) else None
  }

  /** The payloads of `lines`, up to the first that does not parse: JSON.parse throws there and ends the read. */
  function Readable(lines: seq<Text>, payload: Text -> Option<Text>, parses: Text -> bool): seq<Text> {
    if lines == [] then []
    else match payload(lines[0])
      case None => Readable(lines[1..], payload, parses)
      case Some(data) => if parses(data) then [data] + Readable(lines[1..], payload, parses) else []
  }

  /** Every payload parses. */
  predicate Clean(lines: seq<Text>, payload: Text -> Option<Text>, parses: Text -> bool) {
    lines == [] ||
    ((payload(lines[0]).Some? ==> parses(payload(lines[0]).value)) && Clean(lines[1..], payload, parses))
  }

  lemma {:induction false} ReadableAppend(a: seq<Text>, b: seq<Text>, payload: Text -> Option<Text>,
                                          parses: Text -> bool)
    ensures Readable(a + b, payload, parses)
         == if Clean(a, payload, parses) then Readable(a, payload, parses) + Readable(b, payload, parses)
            else Readable(a, payload, parses)
    ensures Clean(a + b, payload, parses) <==> Clean(a, payload, parses) && Clean(b, payload, parses)
  {
    if a == [] {
      assert a + b == b;
    } else {
      ReadableAppend(a[1..], b, payload, parses);
      assert (a + b)[1..] == a[1..] + b && (a + b)[0] == a[0];
      if payload(a[0]).Some? {
        Assoc([payload(a[0]).value], Readable(a[1..], payload, parses), Readable(b, payload, parses));
      }
    }
  }

  lemma DataPrefixIs()
    ensures DataPrefix() == Ascii("data: ")
  {}

  lemma {:induction false} PayloadOf(rest: Text)
    ensures Payload(DataPrefix() + rest) == if Trim(rest) == [] then None else Some(Trim(rest))
  {
    var line := DataPrefix() + rest;
    assert line[6..] == rest && DataPrefix() <= line;
  }

  /** The payload of a line is what follows `data: `, trimmed, if that leaves anything. */
  lemma {:induction false} PayloadIff(line: Text, data: Text)
    ensures Payload(line) == Some(data)
      <==> data != [] && exists rest: Text :: line == Ascii("data: ") + rest && data == Trim(rest)
  {
    DataPrefixIs();
    if DataPrefix() <= line {
      assert line == DataPrefix() + line[6..];
      PayloadOf(line[6..]);
    }
    forall rest: Text | line == DataPrefix() + rest ensures rest == line[6..] {}
  }

  /** All payloads, whether they parse or not. */
  function Payloads(lines: seq<Text>, payload: Text -> Option<Text>): seq<Text> {
    if lines == [] then []
    else (if payload(lines[0]).Some? then [payload(lines[0]).value] else []) + Payloads(lines[1..], payload)
  }

  /** What is read is the longest run of payloads from the start that all parse. */
  lemma {:induction false} ReadableIsLongest(lines: seq<Text>, payload: Text -> Option<Text>, parses: Text -> bool)
    ensures var all, read := Payloads(lines, payload), Readable(lines, payload, parses);
            && read <= all && (forall data :: data in read ==> parses(data))
            && (Clean(lines, payload, parses) <==> read == all)
            && (read != all ==> !parses(all[|read|]))
  {
    if lines != [] {
      ReadableIsLongest(lines[1..], payload, parses);
      var all, read := Payloads(lines[1..], payload), Readable(lines[1..], payload, parses);
      var data := payload(lines[0]);
      if data.Some? && parses(data.value) {
        assert read == all ==> [data.value] + read == [data.value] + all;
        assert read != all ==> |read| < |all|;
      } else if data.None? {
        assert [] + all == all;
      }
    }
  }

  /** Once a line of a prefix of the stream is unreadable, later chunks change nothing. */
  lemma ReadStops(stream: Text, later: Text, payload: Text -> Option<Text>, parses: Text -> bool)
    requires !Clean(Lines(stream), payload, parses)
    ensures Readable(Lines(stream + later), payload, parses) == Readable(Lines(stream), payload, parses)
    ensures !Clean(Lines(stream + later), payload, parses)
  {
    FramingSplits(stream, later);
    ReadableAppend(Lines(stream), Lines(Rest(stream) + later), payload, parses);
  }

  /**
   * The reading loop of streamProxy: the payloads of the `data: ` lines of the whole stream are parsed and pushed in
   * order, however the stream was chunked, up to the first that does not parse. A pushed event is represented by its
   * payload.
   */
  method Read(chunks: seq<Text>, parses: Text -> bool) returns (pushed: seq<Text>, failed: bool)
    ensures pushed == Readable(Lines(Concat(chunks)), Payload, parses)
    ensures failed <==> !Clean(Lines(Concat(chunks)), Payload, parses)
  {
    pushed, failed := ReadChunks(chunks, Payload, parses);
  }

  lemma {:induction false} NextOf(seen: Text, chunks: seq<Text>, n: nat)
    requires n < |chunks|
    ensures seen + Concat(chunks[n..]) == (seen + chunks[n]) + Concat(chunks[n + 1..])
  {
    assert chunks[n..][1..] == chunks[n + 1..];
    Assoc(seen, chunks[n], Concat(chunks[n + 1..]));
  }

  /** What one more chunk makes readable. */
  lemma {:induction false} SeenSplits(seen: Text, chunk: Text, payload: Text -> Option<Text>, parses: Text -> bool)
    requires Clean(Lines(seen), payload, parses)
    ensures var more := Lines(Rest(seen) + chunk);
            && Rest(seen + chunk) == Rest(Rest(seen) + chunk)
            && Readable(Lines(seen + chunk), payload, parses)
               == Readable(Lines(seen), payload, parses) + Readable(more, payload, parses)
            && (Clean(Lines(seen + chunk), payload, parses) <==> Clean(more, payload, parses))
  {
    FramingSplits(seen, chunk);
    ReadableAppend(Lines(seen), Lines(Rest(seen) + chunk), payload, parses);
  }

  /** The same for any way of picking the payload out of a line. */
  method ReadChunks(chunks: seq<Text>, payload: Text -> Option<Text>, parses: Text -> bool)
    returns (pushed: seq<Text>, failed: bool)
    ensures pushed == Readable(Lines(Concat(chunks)), payload, parses)
    ensures failed <==> !Clean(Lines(Concat(chunks)), payload, parses)
  {
    var buffer: Text := [];
    pushed, failed := [], false;
    ghost var seen: Text := [];
    assert chunks[0..] == chunks && seen + Concat(chunks) == Concat(chunks);
    for n := 0 to |chunks|
      invariant buffer == Rest(seen) && seen + Concat(chunks[n..]) == Concat(chunks)
      invariant pushed == Readable(Lines(seen), payload, parses) && Clean(Lines(seen), payload, parses)
    {
      var chunk := chunks[n];
      ghost var later := Concat(chunks[n + 1..]);
      NextOf(seen, chunks, n);
      SeenSplits(seen, chunk, payload, parses);
      buffer := buffer + chunk;
      var lines := Lines(buffer);
      buffer := Rest(buffer);
      pushed, failed := ReadLines(pushed, lines, payload, parses);
      seen := seen + chunk;
      if failed {
        ReadStops(seen, later, payload, parses);
        return;
      }
    }
    assert seen + [] == seen;
  }

  /** The inner loop, over the lines one chunk completed. */
  method ReadLines(before: seq<Text>, lines: seq<Text>, payload: Text -> Option<Text>, parses: Text -> bool)
    returns (pushed: seq<Text>, failed: bool)
    ensures pushed == before + Readable(lines, payload, parses)
    ensures failed <==> !Clean(lines, payload, parses)
  {
    pushed, failed := before, false;
    for k := 0 to |lines|
      invariant before + Readable(lines, payload, parses) == pushed + Readable(lines[k..], payload, parses)
      invariant Clean(lines, payload, parses) == Clean(lines[k..], payload, parses)
    {
      assert lines[k..][1..] == lines[k + 1..];
      var data := payload(lines[k]);
      if data.Some? {
        if !parses(data.value) { return pushed, true; }
        Assoc(pushed, [data.value], Readable(lines[k + 1..], payload, parses));
        pushed := pushed + [data.value];
      }
    }
  }
}
