/** The pieces a turn is made of close no turn, parse, and close exactly the messages they add. */
module TurnTraces {
  import opened Basics
  import opened AgentEvents
  import opened AssistantStream
  import opened ToolBatch
  import opened ToolExecutors
  import opened ToolTraces
  import opened LoopMachine

  /** Events that stay within a turn. */
  predicate IsInner(e: Event) {
    e.MessageStart? || e.MessageUpdate? || e.MessageEnd? || e.ToolStart? || e.ToolUpdate? || e.ToolEnd?
  }

  ghost predicate Inner(events: seq<Event>) { forall i :: 0 <= i < |events| ==> IsInner(events[i]) }

  lemma {:induction false} PairsInner(ms: seq<Message>)
    ensures Inner(Pairs(ms))
  {
    if ms != [] { PairsInner(ms[..|ms| - 1]); }
  }

  lemma {:induction false} StreamInner(context: seq<Message>, stream: seq<StreamEvent>, final: Assistant, added: bool)
    ensures Inner(Stream(context, stream, final, added).trace)
    decreases |stream|
  {
    if stream != [] && !stream[0].Finish? {
      var m := Reply(stream[0].partial);
      if stream[0].Start? {
        StreamInner(context + [m], stream[1..], final, true);
      } else {
        StreamInner(if added then Patch(context, m) else context, stream[1..], final, added);
      }
    }
  }

  lemma {:induction false} InterleaveInner(tasks: seq<Task>, slots: seq<Option<Outcome>>, pick: Schedule, k: nat)
    ensures Inner(Interleave(tasks, slots, pick, k).piece.trace)
    decreases Work(tasks)
  {
    if tasks != [] {
      var p := pick(k).tool % |tasks|;
      var m := Proceed(tasks[p], pick(k).updates);
      WorkShrinks(tasks, p, pick(k).updates);
      InterleaveInner(Advance(tasks, p, m), Fill(slots, tasks[p], m), pick, k + 1);
      assert Inner(m.events);
    }
  }

  lemma {:induction false} PiecesInner(calls: seq<Call>, plan: nat -> Plan, n: nat, f: (nat, Call, Plan) -> Piece)
    requires n <= |calls| && forall i: nat, c, p :: Inner(f(i, c, p).trace)
    ensures Inner(Pieces(calls, plan, n, f).trace)
  {
    if n > 0 { PiecesInner(calls, plan, n - 1, f); }
  }

  lemma CallInner(c: Call, p: Plan, pick: Schedule)
    ensures Inner(CallPiece(c, p, pick).trace)
  {
    if p.Prepared? { InterleaveInner([NewTask(0, c, p)], [], pick, 0); }
    assert Inner(Execution(c, p, pick).trace);
  }

  lemma SequentialInner(calls: seq<Call>, o: Oracle)
    ensures Inner(Sequential(calls, o).piece.trace)
  {
    var f := (i: nat, c: Call, p: Plan) => CallPiece(c, p, o.schedule(i));
    forall i: nat, c, p ensures Inner(f(i, c, p).trace) { CallInner(c, p, o.schedule(i)); }
    PiecesInner(calls, o.plan, Started(calls, o.aborted, 0), f);
  }

  lemma ParallelInner(calls: seq<Call>, o: Oracle)
    ensures Inner(Parallel(calls, o).piece.trace)
  {
    var n := Started(calls, o.aborted, 0);
    PiecesInner(calls, o.plan, n, (i: nat, c: Call, p: Plan) => Plainly(StartEvents(c, p)));
    InterleaveInner(Tasks(calls, o.plan, n), Entries(o.plan, n), o.schedule(0), 0);
    PairsInner(Parallel(calls, o).messages);
  }

  /** Every executor's batch is a well-formed stretch of a turn whose closed messages are its results. */
  lemma BatchSound(w: World, n: nat, a: Assistant)
    ensures var b := BatchOf(w, n, a); Sound(b.piece, b.messages) && Inner(b.piece.trace)
  {
    if a.calls != [] {
      if a.stopReason == Length {
        SequentialSound(a.calls, NEVER);
        SequentialInner(a.calls, NEVER);
      } else if OneAtATime(a.calls, w.serial, w.serialTool) {
        SequentialSound(a.calls, w.tools(n));
        SequentialInner(a.calls, w.tools(n));
      } else {
        ParallelSound(a.calls, w.tools(n));
        ParallelInner(a.calls, w.tools(n));
      }
    }
  }

  // --- counting turns ---

  function Count(trace: seq<Event>, p: Event -> bool): nat {
    if trace == [] then 0 else (if p(trace[0]) then 1 else 0) + Count(trace[1..], p)
  }

  lemma {:induction false} CountAppend(a: seq<Event>, b: seq<Event>, p: Event -> bool)
    ensures Count(a + b, p) == Count(a, p) + Count(b, p)
  {
    if a == [] {
      assert a + b == b;
    } else {
      assert (a + b)[1..] == a[1..] + b;
      CountAppend(a[1..], b, p);
    }
  }

  lemma {:induction false} CountNone(a: seq<Event>, p: Event -> bool)
    requires forall i :: 0 <= i < |a| ==> !p(a[i])
    ensures Count(a, p) == 0
  {
    if a != [] { CountNone(a[1..], p); }
  }

  predicate IsStart(e: Event) { e.TurnStart? }

  predicate IsEnd(e: Event) { e.TurnEnd? }

  function Begun(trace: seq<Event>): nat { Count(trace, IsStart) }

  function Closed(trace: seq<Event>): nat { Count(trace, IsEnd) }

  lemma InnerCounts(trace: seq<Event>, more: seq<Event>)
    requires Inner(more)
    ensures Begun(trace + more) == Begun(trace) && Closed(trace + more) == Closed(trace)
  {
    CountAppend(trace, more, IsStart);
    CountAppend(trace, more, IsEnd);
    CountNone(more, IsStart);
    CountNone(more, IsEnd);
  }

  lemma OneCounts(trace: seq<Event>, e: Event)
    ensures Begun(trace + [e]) == Begun(trace) + if e.TurnStart? then 1 else 0
    ensures Closed(trace + [e]) == Closed(trace) + if e.TurnEnd? then 1 else 0
  {
    CountAppend(trace, [e], IsStart);
    CountAppend(trace, [e], IsEnd);
    assert [e][1..] == [];
  }
}
