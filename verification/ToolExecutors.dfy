/**
 * The executors of tool batches: in parallel under every schedule, truncated, and how these relate to the sequential
 * one.
 */
module ToolExecutors {
  import opened Basics
  import opened AgentEvents
  import opened ToolBatch

  /** The error result a truncated message gives every call. */
  const TRUNCATED := Immediate(Outcome(0, true, false))

  const NEVER: Oracle := Oracle(_ => TRUNCATED, _ => false, _ => _ => Pick(0, false))

  function Truncated(calls: seq<Call>): Batch { Sequential(calls, NEVER).(terminate := false) }

  method FailToolCallsFromTruncatedMessage(calls: seq<Call>) returns (b: Batch)
    ensures b == Truncated(calls)
    ensures b.messages == Results(calls, _ => TRUNCATED, |calls|)
  {
    var messages, piece := [], SILENCE;
    for i := 0 to |calls|
      invariant messages == Results(calls, NEVER.plan, i) && piece == SequentialPiece(calls, NEVER, i)
    {
      var result, one := ExecuteOne(calls[i], TRUNCATED, NEVER.schedule(i));
      piece := Join(piece, one);
      messages := messages + [result];
    }
    b := Batch(messages, false, piece);
  }

  // --- parallel ---

  /** What the start loop emits for one call. */
  function StartEvents(c: Call, p: Plan): seq<Event> {
    if p.Immediate? then [ToolStart(c), ToolEnd(c, p.outcome)] else [ToolStart(c)]
  }

  function WithTask(tasks: seq<Task>, at: nat, c: Call, p: Plan): seq<Task> {
    if p.Immediate? then tasks else tasks + [NewTask(at, c, p)]
  }

  function StartPiece(calls: seq<Call>, plan: nat -> Plan, n: nat): Piece
    requires n <= |calls|
  {
    Pieces(calls, plan, n, (i: nat, c: Call, p: Plan) => Plainly(StartEvents(c, p)))
  }

  /** The tools that run after the start loop. */
  function Tasks(calls: seq<Call>, plan: nat -> Plan, n: nat): seq<Task>
    requires n <= |calls|
  {
    if n == 0 then [] else WithTask(Tasks(calls, plan, n - 1), n - 1, calls[n - 1], plan(n - 1))
  }

  /** finalizedCalls after the start loop: settled entries, and entries whose tool still has to run. */
  function Entries(plan: nat -> Plan, n: nat): (r: seq<Option<Outcome>>)
    ensures |r| == n
  {
    if n == 0 then [] else Entries(plan, n - 1) + [if plan(n - 1).Immediate? then Some(plan(n - 1).outcome) else None]
  }

  /** One message per place that holds an outcome, in the order of the places. */
  function MessagesOf(calls: seq<Call>, slots: seq<Option<Outcome>>): seq<Message>
    requires |slots| <= |calls|
  {
    if slots == [] then []
    else
      var n := |slots| - 1;
      MessagesOf(calls, slots[..n]) + if slots[n].Some? then [ToolResult(calls[n], slots[n].value)] else []
  }

  lemma {:induction false} InterleaveKeepsPlaces(tasks: seq<Task>, slots: seq<Option<Outcome>>, pick: Schedule, k: nat)
    ensures |Interleave(tasks, slots, pick, k).slots| == |slots|
    decreases Work(tasks)
  {
    if tasks != [] {
      var p := pick(k).tool % |tasks|;
      var m := Proceed(tasks[p], pick(k).updates);
      WorkShrinks(tasks, p, pick(k).updates);
      InterleaveKeepsPlaces(Advance(tasks, p, m), Fill(slots, tasks[p], m), pick, k + 1);
    }
  }

  /** Start all, let them run under the schedule, then read the places off in order. */
  function Parallel(calls: seq<Call>, o: Oracle): Batch {
    var n := Started(calls, o.aborted, 0);
    var played := Interleave(Tasks(calls, o.plan, n), Entries(o.plan, n), o.schedule(0), 0);
    InterleaveKeepsPlaces(Tasks(calls, o.plan, n), Entries(o.plan, n), o.schedule(0), 0);
    var messages := MessagesOf(calls, played.slots);
    Batch(messages, ShouldTerminate(messages),
          Join(Join(StartPiece(calls, o.plan, n), played.piece), Plainly(Pairs(messages))))
  }

  /** The start loop of the parallel executor. */
  method StartAll(calls: seq<Call>, o: Oracle) returns (tasks: seq<Task>, slots: seq<Option<Outcome>>, piece: Piece)
    ensures var n := Started(calls, o.aborted, 0);
            slots == Entries(o.plan, n) && tasks == Tasks(calls, o.plan, n) && piece == StartPiece(calls, o.plan, n)
  {
    tasks, slots, piece := [], [], SILENCE;
    var i := 0;
    while i < |calls|
      invariant i <= |calls| && Started(calls, o.aborted, 0) == Started(calls, o.aborted, i)
      invariant slots == Entries(o.plan, i) && tasks == Tasks(calls, o.plan, i) && piece == StartPiece(calls, o.plan, i)
    {
      var c, p := calls[i], o.plan(i);
      piece := Join(piece, Plainly(StartEvents(c, p)));
      if p.Immediate? {
        slots := slots + [Some(p.outcome)];
      } else {
        slots := slots + [None];
        tasks := tasks + [NewTask(i, c, p)];
      }
      i := i + 1;
      if o.aborted(i - 1) { break; }
    }
  }

  /** The loop over orderedFinalizedCalls. */
  method ReadOff(calls: seq<Call>, ordered: seq<Option<Outcome>>) returns (messages: seq<Message>, events: seq<Event>)
    requires |ordered| <= |calls|
    ensures messages == MessagesOf(calls, ordered) && events == Pairs(messages)
  {
    messages, events := [], [];
    for i := 0 to |ordered|
      invariant messages == MessagesOf(calls, ordered[..i]) && events == Pairs(messages)
    {
      assert ordered[..i + 1][..i] == ordered[..i];
      if ordered[i].Some? {
        var result := ToolResult(calls[i], ordered[i].value);
        assert (messages + [result])[..|messages|] == messages;
        messages := messages + [result];
        events := events + Pair(result);
      }
    }
    assert ordered[..|ordered|] == ordered;
  }

  method ExecuteToolCallsParallel(calls: seq<Call>, o: Oracle) returns (b: Batch)
    ensures b == Parallel(calls, o)
  {
    var tasks, slots, started := StartAll(calls, o);
    var executed, ordered := AwaitAll(tasks, slots, o.schedule(0));
    InterleaveKeepsPlaces(tasks, slots, o.schedule(0), 0);
    var messages, pairs := ReadOff(calls, ordered);
    var terminate := EveryTerminates(messages);
    b := Batch(messages, terminate, Join(Join(started, executed), Plainly(pairs)));
  }

  /** A call asks for sequential execution when its tool does, and so does the configuration for all. */
  predicate OneAtATime(calls: seq<Call>, always: bool, tool: nat -> bool) {
    always || exists c :: c in calls && tool(c.name)
  }

  method ExecuteToolCalls(calls: seq<Call>, always: bool, tool: nat -> bool, o: Oracle) returns (b: Batch)
    ensures b == if OneAtATime(calls, always, tool) then Sequential(calls, o) else Parallel(calls, o)
  {
    var sequential := always;
    for i := 0 to |calls|
      invariant sequential <==> always || exists j :: 0 <= j < i && tool(calls[j].name)
    {
      if tool(calls[i].name) { sequential := true; }
    }
    assert OneAtATime(calls, always, tool) <==> always || exists j :: 0 <= j < |calls| && tool(calls[j].name);
    if sequential { b := ExecuteToolCallsSequential(calls, o); } else { b := ExecuteToolCallsParallel(calls, o); }
  }

  // --- every place gets its own outcome ---

  /** Every place is filled with its own call's outcome or has a tool running for it. */
  ghost predicate Covers(live: seq<Task>, slots: seq<Option<Outcome>>, plan: nat -> Plan) {
    && (forall j :: 0 <= j < |live| ==> live[j].at < |slots| && live[j].outcome == plan(live[j].at).outcome)
    && (forall i :: 0 <= i < |slots| ==> slots[i] == Some(plan(i).outcome) || Runs(live, i))
  }

  ghost predicate Runs(live: seq<Task>, i: nat) { exists j :: 0 <= j < |live| && live[j].at == i }

  lemma StillRuns(live: seq<Task>, p: nat, i: nat)
    requires p < |live| && Runs(live, i) && live[p].at != i
    ensures Runs(Remove(live, p), i)
  {
    var j :| 0 <= j < |live| && live[j].at == i;
    var rest := Remove(live, p);
    assert j < p ==> rest[j] == live[j];
    assert j > p ==> rest[j - 1] == live[j];
  }

  lemma EndCovers(live: seq<Task>, slots: seq<Option<Outcome>>, plan: nat -> Plan, p: nat)
    requires Covers(live, slots, plan) && p < |live|
    ensures Covers(Remove(live, p), slots[live[p].at := Some(live[p].outcome)], plan)
  {
    var rest := Remove(live, p);
    var filled := slots[live[p].at := Some(live[p].outcome)];
    forall j | 0 <= j < |rest| ensures rest[j].at < |filled| && rest[j].outcome == plan(rest[j].at).outcome {
      assert rest[j] == if j < p then live[j] else live[j + 1];
    }
    forall i | 0 <= i < |filled| ensures filled[i] == Some(plan(i).outcome) || Runs(rest, i) {
      if i != live[p].at && slots[i] != Some(plan(i).outcome) { StillRuns(live, p, i); }
    }
  }

  lemma SameCovers(live: seq<Task>, slots: seq<Option<Outcome>>, plan: nat -> Plan, p: nat, t: Task)
    requires Covers(live, slots, plan) && p < |live| && t.at == live[p].at && t.outcome == live[p].outcome
    ensures Covers(live[p := t], slots, plan)
  {
    forall i | 0 <= i < |slots| ensures slots[i] == Some(plan(i).outcome) || Runs(live[p := t], i) {
      if slots[i] != Some(plan(i).outcome) {
        var j :| 0 <= j < |live| && live[j].at == i;
        assert live[p := t][j].at == i;
      }
    }
  }

  lemma StepCovers(live: seq<Task>, slots: seq<Option<Outcome>>, plan: nat -> Plan, p: nat, updates: bool)
    requires Covers(live, slots, plan) && p < |live|
    ensures var m := Proceed(live[p], updates); Covers(Advance(live, p, m), Fill(slots, live[p], m), plan)
  {
    var m := Proceed(live[p], updates);
    if m.task.Some? { SameCovers(live, slots, plan, p, m.task.value); } else { EndCovers(live, slots, plan, p); }
  }

  /** Promise.all: whatever the completion order, each place ends up with its own call's outcome. */
  lemma {:induction false} EveryPlaceFilled(tasks: seq<Task>, slots: seq<Option<Outcome>>, pick: Schedule, k: nat,
                                            plan: nat -> Plan)
    requires Covers(tasks, slots, plan)
    ensures var filled := Interleave(tasks, slots, pick, k).slots;
            |filled| == |slots| && forall i :: 0 <= i < |slots| ==> filled[i] == Some(plan(i).outcome)
    decreases Work(tasks)
  {
    if tasks != [] {
      var p := pick(k).tool % |tasks|;
      var m := Proceed(tasks[p], pick(k).updates);
      WorkShrinks(tasks, p, pick(k).updates);
      StepCovers(tasks, slots, plan, p, pick(k).updates);
      EveryPlaceFilled(Advance(tasks, p, m), Fill(slots, tasks[p], m), pick, k + 1, plan);
    }
  }

  lemma CoversGrows(tasks: seq<Task>, slots: seq<Option<Outcome>>, plan: nat -> Plan, more: seq<Task>)
    requires Covers(tasks, slots, plan)
    requires more == [] || (|more| == 1 && more[0].at == |slots| && more[0].outcome == plan(|slots|).outcome)
    ensures Covers(tasks + more, slots + [if more == [] then Some(plan(|slots|).outcome) else None], plan)
  {
    var all := tasks + more;
    var grown := slots + [if more == [] then Some(plan(|slots|).outcome) else None];
    forall i | 0 <= i < |grown| ensures grown[i] == Some(plan(i).outcome) || Runs(all, i) {
      if i < |slots| && slots[i] != Some(plan(i).outcome) {
        var j :| 0 <= j < |tasks| && tasks[j].at == i;
        assert all[j].at == i;
      } else if i == |slots| && more != [] {
        assert all[|tasks|].at == i;
      }
    }
  }

  lemma {:induction false} EntriesCovered(calls: seq<Call>, plan: nat -> Plan, n: nat)
    requires n <= |calls|
    ensures Covers(Tasks(calls, plan, n), Entries(plan, n), plan)
  {
    if n > 0 {
      EntriesCovered(calls, plan, n - 1);
      var p := plan(n - 1);
      var more := if p.Immediate? then [] else [NewTask(n - 1, calls[n - 1], p)];
      CoversGrows(Tasks(calls, plan, n - 1), Entries(plan, n - 1), plan, more);
      assert Tasks(calls, plan, n - 1) + more == Tasks(calls, plan, n);
    }
  }

  lemma {:induction false} MessagesAreResults(calls: seq<Call>, slots: seq<Option<Outcome>>, plan: nat -> Plan)
    requires |slots| <= |calls| && forall i :: 0 <= i < |slots| ==> slots[i] == Some(plan(i).outcome)
    ensures MessagesOf(calls, slots) == Results(calls, plan, |slots|)
  {
    if slots != [] { MessagesAreResults(calls, slots[..|slots| - 1], plan); }
  }

  /**
   * For every schedule: one result per started call in source order; the started calls are a prefix, all unless
   * aborted.
   */
  lemma ResultsInSourceOrder(calls: seq<Call>, o: Oracle)
    ensures var b := Parallel(calls, o); var n := Started(calls, o.aborted, 0);
            && b.messages == Results(calls, o.plan, n)
            && (n == |calls| <==> forall i :: 0 <= i < |calls| - 1 ==> !o.aborted(i))
  {
    ReadOffInOrder(calls, o, Started(calls, o.aborted, 0));
    AllStartedIff(calls, o.aborted);
  }

  lemma ReadOffInOrder(calls: seq<Call>, o: Oracle, n: nat)
    requires n <= |calls|
    ensures var slots := Interleave(Tasks(calls, o.plan, n), Entries(o.plan, n), o.schedule(0), 0).slots;
            |slots| == n && MessagesOf(calls, slots) == Results(calls, o.plan, n)
  {
    EntriesCovered(calls, o.plan, n);
    EveryPlaceFilled(Tasks(calls, o.plan, n), Entries(o.plan, n), o.schedule(0), 0, o.plan);
    MessagesAreResults(calls, Interleave(Tasks(calls, o.plan, n), Entries(o.plan, n), o.schedule(0), 0).slots, o.plan);
  }

  lemma AllStartedIff(calls: seq<Call>, aborted: nat -> bool)
    ensures Started(calls, aborted, 0) == |calls| <==> forall i :: 0 <= i < |calls| - 1 ==> !aborted(i)
  {
    var n := Started(calls, aborted, 0);
    if n < |calls| { assert aborted(n - 1) && 0 <= n - 1 < |calls| - 1; }
  }

  /** When outcomes depend on the calls only and nothing is aborted, the schedule and the executor do not matter. */
  lemma ParallelRefinesSequential(calls: seq<Call>, o: Oracle, s: Oracle, outcome: Call -> Outcome)
    requires forall i :: 0 <= i < |calls| ==>
               o.plan(i).outcome == outcome(calls[i]) && s.plan(i).outcome == outcome(calls[i])
    requires forall i :: 0 <= i < |calls| ==> !o.aborted(i) && !s.aborted(i)
    ensures Parallel(calls, o).messages == Sequential(calls, s).messages
    ensures Parallel(calls, o).terminate == Sequential(calls, s).terminate
  {
    var n, m := Started(calls, o.aborted, 0), Started(calls, s.aborted, 0);
    assert n == |calls| && m == |calls|;
    ResultsInSourceOrder(calls, o);
    assert Results(calls, o.plan, n) == Results(calls, s.plan, m);
  }
}
