/** What a batch of tool calls answers, call by call, and what it emits for one call. */
module ToolEffects {
  import opened Basics
  import opened AgentEvents
  import opened ToolBatch
  import opened ToolExecutors
  import opened ToolShuffle
  import opened LoopMachine

  /** Some result does not ask to end the run. */
  predicate GoesOn(results: seq<Message>) { exists m :: m in results && !(m.ToolResult? && m.outcome.terminate) }

  /** Every call of a reply that was cut off gets an error result, which never ends the run. */
  ghost predicate CutOff(calls: seq<Call>, results: seq<Message>) {
    |results| == |calls| && forall i :: 0 <= i < |calls| ==>
      results[i].ToolResult? && results[i].call == calls[i] && results[i].outcome.isError
      && !results[i].outcome.terminate
  }

  /** The started calls, in order, answer with their own outcomes; they are all of them, or end at an abort. */
  ghost predicate Executed(calls: seq<Call>, o: Oracle, results: seq<Message>) {
    && 0 < |results| <= |calls| && (|results| == |calls| || o.aborted(|results| - 1))
    && (forall i :: 0 <= i < |results| ==> results[i] == ToolResult(calls[i], o.plan(i).outcome))
    && (forall i :: 0 <= i < |results| - 1 ==> !o.aborted(i))
  }

  lemma CutOffAnswers(calls: seq<Call>)
    requires calls != []
    ensures CutOff(calls, Truncated(calls).messages) && GoesOn(Truncated(calls).messages)
  {
    NeverAborted(calls);
    var results := Truncated(calls).messages;
    assert results[0] in results;
  }

  lemma StartedAnswer(calls: seq<Call>, o: Oracle, results: seq<Message>)
    requires calls != [] && results == Results(calls, o.plan, Started(calls, o.aborted, 0))
    ensures Executed(calls, o, results) && (!ShouldTerminate(results) <==> GoesOn(results))
  {}

  /** What the calls of the n-th reply answer, and when the loop has more to do for it. */
  lemma BatchAnswers(w: World, n: nat, a: Assistant)
    ensures var b := BatchOf(w, n, a);
            && (a.calls == [] ==> b.messages == [])
            && (a.calls != [] && a.stopReason == Length ==> CutOff(a.calls, b.messages))
            && (a.calls != [] && a.stopReason != Length ==> Executed(a.calls, w.tools(n), b.messages))
            && (!b.terminate <==> GoesOn(b.messages))
  {
    if a.calls != [] {
      if a.stopReason == Length {
        CutOffAnswers(a.calls);
      } else {
        ResultsInSourceOrder(a.calls, w.tools(n));
        StartedAnswer(a.calls, w.tools(n), BatchOf(w, n, a).messages);
      }
    }
  }

  /** Calls run one after the other if and only if the configuration says so or a called tool demands it. */
  lemma BatchChoice(w: World, n: nat, a: Assistant)
    requires a.calls != [] && a.stopReason != Length
    ensures BatchOf(w, n, a)
         == if w.serial || exists i :: 0 <= i < |a.calls| && w.serialTool(a.calls[i].name)
            then Sequential(a.calls, w.tools(n)) else Parallel(a.calls, w.tools(n))
  {
    assert OneAtATime(a.calls, w.serial, w.serialTool)
      <==> w.serial || exists i :: 0 <= i < |a.calls| && w.serialTool(a.calls[i].name);
  }

  lemma NeverAborted(calls: seq<Call>)
    ensures Truncated(calls).messages == Results(calls, NEVER.plan, |calls|)
  {
    assert Started(calls, NEVER.aborted, 0) == |calls|;
  }

  /** A call of a cut-off reply: announced, ended with the error, answered. */
  function Refused(c: Call): seq<Event> {
    var error := Outcome(0, true, false);
    [ToolStart(c), ToolEnd(c, error), MessageStart(ToolResult(c, error)), MessageEnd(ToolResult(c, error))]
  }

  lemma RefusedPiece(c: Call, pick: Schedule)
    ensures CallPiece(c, TRUNCATED, pick) == Plainly(Refused(c))
  {}

  /** The first `n` calls, each refused in turn. */
  ghost predicate RefusedInTurn(calls: seq<Call>, n: nat, trace: seq<Event>)
    requires n <= |calls|
  {
    |trace| == 4 * n && forall i :: 0 <= i < n ==> trace[4 * i..4 * i + 4] == Refused(calls[i])
  }

  lemma RefusedOneMore(calls: seq<Call>, n: nat, trace: seq<Event>)
    requires n < |calls| && RefusedInTurn(calls, n, trace)
    ensures RefusedInTurn(calls, n + 1, trace + Refused(calls[n]))
  {
    var longer := trace + Refused(calls[n]);
    forall i | 0 <= i < n + 1 ensures longer[4 * i..4 * i + 4] == Refused(calls[i]) {
      if i < n { assert longer[4 * i..4 * i + 4] == trace[4 * i..4 * i + 4]; }
    }
  }

  lemma {:induction false} RefusedPieces(calls: seq<Call>, n: nat)
    requires n <= |calls|
    ensures var piece := SequentialPiece(calls, NEVER, n); piece.strays == [] && RefusedInTurn(calls, n, piece.trace)
  {
    if n > 0 {
      var before := SequentialPiece(calls, NEVER, n - 1);
      RefusedPieces(calls, n - 1);
      OneMore(calls, NEVER, n - 1);
      RefusedPiece(calls[n - 1], NEVER.schedule(n - 1));
      assert SequentialPiece(calls, NEVER, n) == Join(before, Plainly(Refused(calls[n - 1])));
      RefusedOneMore(calls, n - 1, before.trace);
    }
  }

  /** The calls of a reply that was cut off are not executed: no tool is asked, and each call is refused in turn. */
  lemma CutOffIsNotExecuted(w: World, n: nat, a: Assistant)
    requires a.stopReason == Length && a.calls != []
    ensures var piece := BatchOf(w, n, a).piece;
            piece.strays == [] && RefusedInTurn(a.calls, |a.calls|, piece.trace)
    ensures forall w': World :: BatchOf(w', n, a) == BatchOf(w, n, a)
  {
    assert Started(a.calls, NEVER.aborted, 0) == |a.calls|;
    RefusedPieces(a.calls, |a.calls|);
  }

  /** The events of a call that runs alone: start, its updates, its end with its outcome, its result message. */
  lemma OneCallTrace(c: Call, p: Plan, pick: Schedule)
    ensures exists events ::
              && CallPiece(c, p, pick).trace == [ToolStart(c)] + events + Pair(ToolResult(c, p.outcome))
              && (if p.Immediate? then events == [ToolEnd(c, p.outcome)] else Emits(events, NewTask(0, c, p)))
  {
    var events := Execution(c, p, pick).trace;
    if p.Prepared? { AloneEmits([NewTask(0, c, p)], pick, 0); }
    assert CallPiece(c, p, pick).trace == [ToolStart(c)] + events + Pair(ToolResult(c, p.outcome));
  }

  lemma {:induction false} AloneEmits(tasks: seq<Task>, pick: Schedule, k: nat)
    requires |tasks| == 1
    ensures Emits(Interleave(tasks, [], pick, k).piece.trace, tasks[0])
    decreases Work(tasks)
  {
    var t, m := tasks[0], Proceed(tasks[0], pick(k).updates);
    WorkShrinks(tasks, 0, pick(k).updates);
    var next := Advance(tasks, 0, m);
    if m.task.Some? { AloneEmits(next, pick, k + 1); }
    StepEmits(t, pick(k).updates, Interleave(next, Fill([], t, m), pick, k + 1).piece.trace);
  }

  /** The trace announces the call; one that needs no execution ends at once, with its outcome. */
  ghost predicate AnnouncedAt(trace: seq<Event>, c: Call, p: Plan, j: nat) {
    && j < |trace| && trace[j] == ToolStart(c)
    && (p.Immediate? ==> j + 1 < |trace| && trace[j + 1] == ToolEnd(c, p.outcome))
  }

  lemma {:induction false} StartAnnounces(calls: seq<Call>, plan: nat -> Plan, n: nat, i: nat)
    requires i < n <= |calls|
    ensures exists j: nat :: AnnouncedAt(StartPiece(calls, plan, n).trace, calls[i], plan(i), j)
    decreases n
  {
    var before := StartPiece(calls, plan, n - 1).trace;
    var trace := StartPiece(calls, plan, n).trace;
    assert trace == before + StartEvents(calls[n - 1], plan(n - 1));
    if i == n - 1 {
      assert AnnouncedAt(trace, calls[i], plan(i), |before|);
    } else {
      StartAnnounces(calls, plan, n - 1, i);
      var j: nat :| AnnouncedAt(before, calls[i], plan(i), j);
      assert AnnouncedAt(trace, calls[i], plan(i), j);
    }
  }

  /** A parallel batch announces every started call, and ends it at once if it needs no execution. */
  lemma ParallelAnnounces(calls: seq<Call>, o: Oracle, i: nat)
    requires i < Started(calls, o.aborted, 0)
    ensures exists j: nat :: AnnouncedAt(Parallel(calls, o).piece.trace, calls[i], o.plan(i), j)
  {
    var n := Started(calls, o.aborted, 0);
    StartAnnounces(calls, o.plan, n, i);
    var start, trace := StartPiece(calls, o.plan, n).trace, Parallel(calls, o).piece.trace;
    var j: nat :| AnnouncedAt(start, calls[i], o.plan(i), j);
    assert start <= trace;
    assert AnnouncedAt(trace, calls[i], o.plan(i), j);
  }
}
