/** What each tool contributes to the trace of tools running together. */
module ToolShuffle {
  import opened Basics
  import opened AgentEvents
  import opened ToolBatch
  import opened ToolExecutors

  function Updates(c: Call, updates: seq<nat>): seq<Event> {
    if updates == [] then [] else [ToolUpdate(c, updates[0])] + Updates(c, updates[1..])
  }

  /** For each event of the interleaving, the place of the tool that emitted it. */
  function Places(tasks: seq<Task>, pick: Schedule, k: nat): seq<nat>
    decreases Work(tasks)
  {
    if tasks == [] then []
    else
      var p := pick(k).tool % |tasks|;
      var m := Proceed(tasks[p], pick(k).updates);
      WorkShrinks(tasks, p, pick(k).updates);
      (if m.events == [] then [] else [tasks[p].at]) + Places(Advance(tasks, p, m), pick, k + 1)
  }

  /** The events at the given place, in order. */
  function Only(events: seq<Event>, places: seq<nat>, at: nat): seq<Event> {
    if events == [] || places == [] then []
    else (if places[0] == at then [events[0]] else []) + Only(events[1..], places[1..], at)
  }

  lemma OnlyStep(first: seq<Event>, place: nat, events: seq<Event>, places: seq<nat>, at: nat)
    requires |first| <= 1
    ensures Only(first + events, (if first == [] then [] else [place]) + places, at)
         == (if place == at then first else []) + Only(events, places, at)
  {
    if first == [] {
      assert first + events == events && [] + places == places;
    } else {
      assert (first + events)[1..] == events && ([place] + places)[1..] == places;
      assert first == [first[0]];
    }
  }

  /** The first `n` updates and the end. */
  function Heard(t: Task, n: nat): seq<Event>
    requires n <= |t.updates|
  {
    Updates(t.call, t.updates[..n]) + [ToolEnd(t.call, t.outcome)]
  }

  /** `n` updates get through: all those made before the tool settles, none once the gate is shut. */
  predicate Passes(t: Task, n: nat) {
    n <= |t.updates| && if t.gate == Shut then n == 0 else n >= t.due || n == |t.updates|
  }

  ghost predicate Emits(events: seq<Event>, t: Task) { exists n: nat :: Passes(t, n) && events == Heard(t, n) }

  lemma StepEmits(t: Task, updates: bool, rest: seq<Event>)
    requires var m := Proceed(t, updates); if m.task.Some? then Emits(rest, m.task.value) else rest == []
    ensures Emits(Proceed(t, updates).events + rest, t)
  {
    var m := Proceed(t, updates);
    if Calls(t, updates) {
      var n: nat :| Passes(Called(t), n) && rest == Heard(Called(t), n);
      if t.gate == Open {
        assert t.updates[..n + 1][1..] == t.updates[1..][..n];
        Assoc([ToolUpdate(t.call, t.updates[0])], Updates(t.call, t.updates[1..][..n]), [ToolEnd(t.call, t.outcome)]);
        assert m.events + rest == Heard(t, n + 1) && Passes(t, n + 1);
      } else {
        assert m.events + rest == Heard(t, 0) && Passes(t, 0);
      }
    } else {
      assert m.events + rest == Heard(t, 0) && Passes(t, 0);
    }
  }

  ghost predicate Distinct(tasks: seq<Task>) {
    forall i, j :: 0 <= i < j < |tasks| ==> tasks[i].at != tasks[j].at
  }

  ghost predicate Absent(tasks: seq<Task>, at: nat) { forall i :: 0 <= i < |tasks| ==> tasks[i].at != at }

  lemma AdvanceDistinct(tasks: seq<Task>, p: nat, updates: bool, at: nat)
    requires p < |tasks| && Distinct(tasks)
    ensures var m := Proceed(tasks[p], updates); var next := Advance(tasks, p, m);
            && Distinct(next) && (Absent(tasks, at) ==> Absent(next, at))
            && (m.task.None? ==> Absent(next, tasks[p].at))
            && (m.task.Some? ==> m.task.value.at == tasks[p].at)
  {}

  /** A place where no tool runs stays silent. */
  lemma {:induction false} NothingAbsent(tasks: seq<Task>, slots: seq<Option<Outcome>>, pick: Schedule, k: nat, at: nat)
    requires Distinct(tasks) && Absent(tasks, at)
    ensures Only(Interleave(tasks, slots, pick, k).piece.trace, Places(tasks, pick, k), at) == []
    decreases Work(tasks)
  {
    if tasks != [] {
      var p := pick(k).tool % |tasks|;
      var m := Proceed(tasks[p], pick(k).updates);
      WorkShrinks(tasks, p, pick(k).updates);
      var next, filled := Advance(tasks, p, m), Fill(slots, tasks[p], m);
      AdvanceDistinct(tasks, p, pick(k).updates, at);
      NothingAbsent(next, filled, pick, k + 1, at);
      OnlyStep(m.events, tasks[p].at, Interleave(next, filled, pick, k + 1).piece.trace, Places(next, pick, k + 1), at);
    }
  }

  /** Where the tool at `q` stands after the one at `p` proceeded. */
  function Moved(p: nat, q: nat, m: Move): int { if m.task.None? && p < q then q - 1 else q }

  lemma OtherStays(tasks: seq<Task>, p: nat, q: nat, m: Move)
    requires p < |tasks| && q < |tasks| && p != q
    ensures var r := Moved(p, q, m); 0 <= r < |Advance(tasks, p, m)| && Advance(tasks, p, m)[r] == tasks[q]
  {}

  /**
   * Whatever the schedule, each tool's events are a prefix of its onUpdate calls, containing all it made before it
   * settled, and then its end; later calls are dropped.
   */
  lemma {:induction false} InterleaveShuffles(tasks: seq<Task>, slots: seq<Option<Outcome>>, pick: Schedule, k: nat,
                                              q: nat)
    requires Distinct(tasks) && q < |tasks|
    ensures Emits(Only(Interleave(tasks, slots, pick, k).piece.trace, Places(tasks, pick, k), tasks[q].at), tasks[q])
    decreases Work(tasks)
  {
    var p := pick(k).tool % |tasks|;
    var t, at := tasks[p], tasks[q].at;
    var m := Proceed(t, pick(k).updates);
    WorkShrinks(tasks, p, pick(k).updates);
    AdvanceDistinct(tasks, p, pick(k).updates, at);
    var next, filled := Advance(tasks, p, m), Fill(slots, t, m);
    var trace, places := Interleave(next, filled, pick, k + 1).piece.trace, Places(next, pick, k + 1);
    OnlyStep(m.events, t.at, trace, places, at);
    if p != q {
      OtherStays(tasks, p, q, m);
      InterleaveShuffles(next, filled, pick, k + 1, Moved(p, q, m));
      assert [] + Only(trace, places, at) == Only(trace, places, at);
    } else {
      if m.task.Some? {
        InterleaveShuffles(next, filled, pick, k + 1, q);
      } else {
        NothingAbsent(next, filled, pick, k + 1, at);
      }
      StepEmits(t, pick(k).updates, Only(trace, places, at));
    }
  }

  lemma {:induction false} TasksDistinct(calls: seq<Call>, plan: nat -> Plan, n: nat)
    requires n <= |calls|
    ensures var tasks := Tasks(calls, plan, n);
            Distinct(tasks) && forall j :: 0 <= j < |tasks| ==> tasks[j].at < n
  {
    if n > 0 { TasksDistinct(calls, plan, n - 1); }
  }

  lemma {:induction false} TaskOfCall(calls: seq<Call>, plan: nat -> Plan, n: nat, i: nat)
    requires i < n <= |calls| && plan(i).Prepared?
    ensures NewTask(i, calls[i], plan(i)) in Tasks(calls, plan, n)
  {
    if i < n - 1 {
      TaskOfCall(calls, plan, n - 1, i);
    } else {
      assert Tasks(calls, plan, n)[|Tasks(calls, plan, n)| - 1] == NewTask(i, calls[i], plan(i));
    }
  }

  /**
   * Of a prepared call in a parallel batch, exactly its settled updates, perhaps some more, and its end are emitted.
   */
  lemma EachCallRunsOnce(calls: seq<Call>, o: Oracle, i: nat)
    requires i < Started(calls, o.aborted, 0) && o.plan(i).Prepared?
    ensures var n := Started(calls, o.aborted, 0); var tasks := Tasks(calls, o.plan, n);
            Emits(Only(Interleave(tasks, Entries(o.plan, n), o.schedule(0), 0).piece.trace,
                       Places(tasks, o.schedule(0), 0), i),
                  NewTask(i, calls[i], o.plan(i)))
  {
    var n := Started(calls, o.aborted, 0);
    var tasks := Tasks(calls, o.plan, n);
    TasksDistinct(calls, o.plan, n);
    TaskOfCall(calls, o.plan, n, i);
    var q :| 0 <= q < |tasks| && tasks[q] == NewTask(i, calls[i], o.plan(i));
    InterleaveShuffles(tasks, Entries(o.plan, n), o.schedule(0), 0, q);
  }
}
