/** Streaming one assistant response into the context: the partial message is the last element, patched in place. */
module AssistantStream {
  import opened Basics
  import opened AgentEvents
  import opened EventGrammar

  /** `Delta` is any of the text, thinking and tool-call events; `Finish` is done or error. */
  datatype StreamEvent = Start(partial: Assistant) | Delta(partial: Assistant) | Finish

  /** What the provider yields, and what result() resolves to. */
  datatype Response = Response(stream: seq<StreamEvent>, final: Assistant)

  /** context.messages[context.messages.length - 1] = m */
  function Patch(context: seq<Message>, m: Message): seq<Message> {
    if context == [] then [m] else context[..|context| - 1] + [m]
  }

  datatype Streamed = Streamed(context: seq<Message>, trace: seq<Event>)

  function Settle(context: seq<Message>, final: Assistant, added: bool): Streamed {
    if added then Streamed(Patch(context, Reply(final)), [MessageEnd(Reply(final))])
    else Streamed(context + [Reply(final)], Pair(Reply(final)))
  }

  function Prepend(e: Event, s: Streamed): Streamed { s.(trace := [e] + s.trace) }

  /** streamAssistantResponse from the given point of the stream on. */
  function Stream(context: seq<Message>, stream: seq<StreamEvent>, final: Assistant, added: bool): Streamed
    decreases |stream|
  {
    if stream == [] || stream[0].Finish? then Settle(context, final, added)
    else
      var m := Reply(stream[0].partial);
      if stream[0].Start? then Prepend(MessageStart(m), Stream(context + [m], stream[1..], final, true))
      else if added then Prepend(MessageUpdate(m), Stream(Patch(context, m), stream[1..], final, true))
      else Stream(context, stream[1..], final, false)
  }

  /** The loop over the stream. */
  method StreamAssistantResponse(context: seq<Message>, r: Response) returns (messages: seq<Message>, trace: seq<Event>)
    ensures Streamed(messages, trace) == Stream(context, r.stream, r.final, false)
  {
    messages, trace := context, [];
    var added := false;
    var i := 0;
    while i < |r.stream| && !r.stream[i].Finish?
      invariant i <= |r.stream|
      invariant var rest := Stream(messages, r.stream[i..], r.final, added);
                Stream(context, r.stream, r.final, false) == Streamed(rest.context, trace + rest.trace)
    {
      var e := r.stream[i];
      ghost var before := trace;
      assert r.stream[i..][1..] == r.stream[i + 1..];
      if e.Start? {
        messages := messages + [Reply(e.partial)];
        added := true;
        trace := trace + [MessageStart(Reply(e.partial))];
      } else if added {
        messages := Patch(messages, Reply(e.partial));
        trace := trace + [MessageUpdate(Reply(e.partial))];
      }
      i := i + 1;
      ghost var rest := Stream(messages, r.stream[i..], r.final, added);
      Assoc(before, trace[|before|..], rest.trace);
      assert trace == before + trace[|before|..];
    }
    if added {
      messages := Patch(messages, Reply(r.final));
    } else {
      messages := messages + [Reply(r.final)];
      trace := trace + [MessageStart(Reply(r.final))];
    }
    trace := trace + [MessageEnd(Reply(r.final))];
  }

  // --- how often the stream starts decides everything ---

  /** The start events before the stream finishes. */
  function Starts(stream: seq<StreamEvent>): nat {
    if stream == [] || stream[0].Finish? then 0 else (if stream[0].Start? then 1 else 0) + Starts(stream[1..])
  }

  /** Stale partial messages that are left in the context: one for each start after the first. */
  function Excess(r: Response): nat { if Starts(r.stream) == 0 then 0 else Starts(r.stream) - 1 }

  predicate Tame(r: Response) { Starts(r.stream) <= 1 }

  lemma {:induction false} StreamLength(context: seq<Message>, stream: seq<StreamEvent>, final: Assistant, added: bool)
    requires added ==> context != []
    ensures |Stream(context, stream, final, added).context|
         == |context| + Starts(stream) + if added || Starts(stream) > 0 then 0 else 1
    decreases |stream|
  {
    if stream != [] && !stream[0].Finish? {
      var m := Reply(stream[0].partial);
      if stream[0].Start? {
        StreamLength(context + [m], stream[1..], final, true);
      } else {
        StreamLength(if added then Patch(context, m) else context, stream[1..], final, added);
      }
    }
  }

  /** Once the bracket is open and no further start comes, the partial is replaced and the rest of the context stays. */
  lemma {:induction false} OpenStream(context: seq<Message>, partial: Message, stream: seq<StreamEvent>,
                                      final: Assistant)
    requires Starts(stream) == 0
    ensures Stream(context + [partial], stream, final, true).context == context + [Reply(final)]
    ensures Parse(InTurn(true, multiset{}), Stream(context + [partial], stream, final, true).trace) == Some(QUIET)
    decreases |stream|
  {
    if stream == [] || stream[0].Finish? {
      ParseOne(InTurn(true, multiset{}), MessageEnd(Reply(final)));
    } else {
      var m := Reply(stream[0].partial);
      OpenStream(context, m, stream[1..], final);
      assert Patch(context + [partial], m) == context + [m];
      var rest := Stream(context + [m], stream[1..], final, true).trace;
      assert ([MessageUpdate(m)] + rest)[1..] == rest;
    }
  }

  /** A second start inside the bracket is refused by the grammar. */
  lemma {:induction false} NestedStart(context: seq<Message>, stream: seq<StreamEvent>, final: Assistant)
    requires Starts(stream) > 0
    ensures Parse(InTurn(true, multiset{}), Stream(context, stream, final, true).trace) == None
    decreases |stream|
  {
    var m := Reply(stream[0].partial);
    if !stream[0].Start? {
      NestedStart(Patch(context, m), stream[1..], final);
      var rest := Stream(Patch(context, m), stream[1..], final, true).trace;
      assert ([MessageUpdate(m)] + rest)[1..] == rest;
    }
  }

  lemma {:induction false} ClosedStream(context: seq<Message>, stream: seq<StreamEvent>, final: Assistant)
    ensures var s := Stream(context, stream, final, false);
            && (Starts(stream) <= 1 ==> s.context == context + [Reply(final)] && Parse(QUIET, s.trace) == Some(QUIET))
            && (Starts(stream) > 1 ==> Parse(QUIET, s.trace) == None)
    decreases |stream|
  {
    if stream == [] || stream[0].Finish? {
      PairParses(Reply(final));
    } else if stream[0].Start? {
      var m := Reply(stream[0].partial);
      var rest := Stream(context + [m], stream[1..], final, true).trace;
      assert ([MessageStart(m)] + rest)[1..] == rest;
      if Starts(stream[1..]) == 0 {
        OpenStream(context, m, stream[1..], final);
      } else {
        NestedStart(context + [m], stream[1..], final);
      }
    } else {
      ClosedStream(context, stream[1..], final);
    }
  }

  /** Exactly the streams with at most one start append the final message alone and keep message brackets apart. */
  lemma TameIff(context: seq<Message>, r: Response)
    ensures var s := Stream(context, r.stream, r.final, false);
            && (Tame(r) <==> s.context == context + [Reply(r.final)])
            && (Tame(r) <==> Parse(QUIET, s.trace) == Some(QUIET))
            && |s.context| == |context| + 1 + Excess(r)
  {
    ClosedStream(context, r.stream, r.final);
    StreamLength(context, r.stream, r.final, false);
  }

  /** Whatever the stream, one message is closed: the final one. */
  lemma {:induction false} StreamEnds(context: seq<Message>, stream: seq<StreamEvent>, final: Assistant, added: bool)
    ensures MessageEnds(Stream(context, stream, final, added).trace) == [Reply(final)]
    decreases |stream|
  {
    if stream == [] || stream[0].Finish? {
      PairEnds(Reply(final));
      assert [MessageEnd(Reply(final))][1..] == [];
    } else {
      var m := Reply(stream[0].partial);
      if stream[0].Start? {
        StreamEnds(context + [m], stream[1..], final, true);
        var rest := Stream(context + [m], stream[1..], final, true).trace;
        assert ([MessageStart(m)] + rest)[1..] == rest;
      } else if added {
        StreamEnds(Patch(context, m), stream[1..], final, true);
        var rest := Stream(Patch(context, m), stream[1..], final, true).trace;
        assert ([MessageUpdate(m)] + rest)[1..] == rest;
      } else {
        StreamEnds(context, stream[1..], final, false);
      }
    }
  }

  /** Two starts leave the first partial behind. */
  lemma TwoStartsLeaveAPartial()
    ensures var a := Assistant(Stop, [], "", 0); var b := Assistant(Stop, [], "", 1);
            Stream([], [Start(a), Start(b), Finish], b, false).context == [Reply(a), Reply(b)]
  {
    var a, b := Assistant(Stop, [], "", 0), Assistant(Stop, [], "", 1);
    var s := [Start(a), Start(b), Finish];
    assert s[1..] == [Start(b), Finish] && s[1..][1..] == [Finish];
    assert Stream([Reply(a)] + [Reply(b)], [Finish], b, true).context == [Reply(a), Reply(b)];
    assert Stream([] + [Reply(a)], s[1..], b, true).context == [Reply(a), Reply(b)];
  }

  // --- what is emitted ---

  /** The partial messages of the deltas before the stream finishes. */
  function Deltas(stream: seq<StreamEvent>): seq<Event> {
    if stream == [] || stream[0].Finish? then []
    else (if stream[0].Delta? then [MessageUpdate(Reply(stream[0].partial))] else []) + Deltas(stream[1..])
  }

  /** What the stream is to the Agent: one bracket, opened by its start, updated by what follows, closed as final. */
  function Bracket(stream: seq<StreamEvent>, final: Assistant): seq<Event> {
    if stream == [] || stream[0].Finish? then [MessageStart(Reply(final)), MessageEnd(Reply(final))]
    else if stream[0].Start? then
      [MessageStart(Reply(stream[0].partial))] + Deltas(stream[1..]) + [MessageEnd(Reply(final))]
    else Bracket(stream[1..], final)
  }

  lemma {:induction false} OpenUpdates(context: seq<Message>, stream: seq<StreamEvent>, final: Assistant)
    requires Starts(stream) == 0
    ensures Stream(context, stream, final, true).trace == Deltas(stream) + [MessageEnd(Reply(final))]
    decreases |stream|
  {
    if stream == [] || stream[0].Finish? {
      assert [] + [MessageEnd(Reply(final))] == [MessageEnd(Reply(final))];
    } else {
      var m := Reply(stream[0].partial);
      OpenUpdates(Patch(context, m), stream[1..], final);
      Assoc([MessageUpdate(m)], Deltas(stream[1..]), [MessageEnd(Reply(final))]);
    }
  }

  /** A stream that starts at most once emits exactly its bracket; updates before the start are not shown. */
  lemma {:induction false} TameTrace(context: seq<Message>, stream: seq<StreamEvent>, final: Assistant)
    requires Starts(stream) <= 1
    ensures Stream(context, stream, final, false).trace == Bracket(stream, final)
    decreases |stream|
  {
    if stream != [] && !stream[0].Finish? {
      if stream[0].Start? {
        var m := Reply(stream[0].partial);
        OpenUpdates(context + [m], stream[1..], final);
        Assoc([MessageStart(m)], Deltas(stream[1..]), [MessageEnd(Reply(final))]);
      } else {
        TameTrace(context, stream[1..], final);
      }
    }
  }
}
