/** The traces of tool batches: well formed under every schedule, and closed to updates once a tool has ended. */
module ToolTraces {
  import opened Basics
  import opened AgentEvents
  import opened EventGrammar
  import opened ToolBatch
  import opened ToolExecutors

  /** No event of the trace closes a message. */
  ghost predicate Silent(trace: seq<Event>) { forall i :: 0 <= i < |trace| ==> !trace[i].MessageEnd? }

  lemma {:induction false} SilentEnds(trace: seq<Event>)
    requires Silent(trace)
    ensures MessageEnds(trace) == []
  {
    if trace != [] { SilentEnds(trace[1..]); }
  }

  /** Every tool left behind ended within the trace, and its gate is shut. */
  ghost predicate Hushed(piece: Piece) {
    forall i :: 0 <= i < |piece.strays| ==> piece.strays[i].task.gate == Shut && piece.strays[i].since <= |piece.trace|
  }

  lemma JoinHushed(a: Piece, b: Piece)
    requires Hushed(a) && Hushed(b)
    ensures Hushed(Join(a, b))
  {}

  // --- the ids of the running tools ---

  function Ids(tasks: seq<Task>): multiset<Id> {
    if tasks == [] then multiset{} else multiset{tasks[0].call.id} + Ids(tasks[1..])
  }

  lemma {:induction false} IdsAppend(a: seq<Task>, b: seq<Task>)
    ensures Ids(a + b) == Ids(a) + Ids(b)
  {
    if a == [] {
      assert a + b == b;
    } else {
      assert (a + b)[1..] == a[1..] + b;
      IdsAppend(a[1..], b);
    }
  }

  lemma IdsCons(t: Task, rest: seq<Task>)
    ensures Ids([t] + rest) == multiset{t.call.id} + Ids(rest)
  {
    assert ([t] + rest)[1..] == rest;
  }

  lemma {:induction false} IdsRemove(tasks: seq<Task>, p: nat)
    requires p < |tasks|
    ensures Ids(tasks) == Ids(Remove(tasks, p)) + multiset{tasks[p].call.id}
  {
    var rest := tasks[1..];
    if p == 0 {
      assert Remove(tasks, p) == rest;
    } else {
      IdsRemove(rest, p - 1);
      assert Remove(tasks, p) == [tasks[0]] + Remove(rest, p - 1);
      IdsCons(tasks[0], Remove(rest, p - 1));
    }
  }

  lemma IdsSame(tasks: seq<Task>, p: nat, t: Task)
    requires p < |tasks| && t.call == tasks[p].call
    ensures Ids(tasks[p := t]) == Ids(tasks)
  {
    IdsRemove(tasks, p);
    IdsRemove(tasks[p := t], p);
    assert Remove(tasks[p := t], p) == Remove(tasks, p);
  }

  lemma IdsLast(tasks: seq<Task>, t: Task)
    ensures Ids(tasks + [t]) == Ids(tasks) + multiset{t.call.id}
  {
    IdsAppend(tasks, [t]);
    IdsCons(t, []);
    assert [t] + [] == [t];
  }

  lemma TakeBack(m: multiset<Id>, id: Id)
    ensures id in m + multiset{id} && m + multiset{id} - multiset{id} == m
  {}

  // --- running tools ---

  lemma SomeParses(phase: Phase, events: seq<Event>, next: Phase)
    requires events == [] ==> next == phase
    requires events != [] ==> |events| == 1 && Accept(phase, events[0]) == Some(next)
    ensures Parse(phase, events) == Some(next)
  {
    if events != [] {
      ParseOne(phase, events[0]);
      assert events == [events[0]];
    }
  }

  /** A step of a running tool: an update goes out only while its call is open. */
  lemma ProceedAccepted(t: Task, updates: bool, others: multiset<Id>)
    ensures var m := Proceed(t, updates); var open := others + multiset{t.call.id};
            && Parse(InTurn(false, open), m.events) == Some(InTurn(false, if m.task.Some? then open else others))
            && Silent(m.events) && Hushed(Emitted(t, m))
  {
    var m, open := Proceed(t, updates), others + multiset{t.call.id};
    TakeBack(others, t.call.id);
    SomeParses(InTurn(false, open), m.events, InTurn(false, if m.task.Some? then open else others));
  }

  lemma IdsAdvance(tasks: seq<Task>, p: nat, updates: bool)
    requires p < |tasks|
    ensures var m := Proceed(tasks[p], updates); var others := Ids(Remove(tasks, p));
            && Ids(tasks) == others + multiset{tasks[p].call.id}
            && Ids(Advance(tasks, p, m)) == if m.task.Some? then Ids(tasks) else others
  {
    var m := Proceed(tasks[p], updates);
    IdsRemove(tasks, p);
    if m.task.Some? { IdsSame(tasks, p, m.task.value); }
  }

  lemma ProceedParses(tasks: seq<Task>, p: nat, updates: bool)
    requires p < |tasks|
    ensures var m := Proceed(tasks[p], updates);
            && Parse(InTurn(false, Ids(tasks)), m.events) == Some(InTurn(false, Ids(Advance(tasks, p, m))))
            && Silent(m.events) && Hushed(Emitted(tasks[p], m))
  {
    IdsAdvance(tasks, p, updates);
    ProceedAccepted(tasks[p], updates, Ids(Remove(tasks, p)));
  }

  /** Under every schedule, whenever the tools settle and however long they go on calling onUpdate. */
  lemma {:induction false} InterleaveParses(tasks: seq<Task>, slots: seq<Option<Outcome>>, pick: Schedule, k: nat)
    ensures var piece := Interleave(tasks, slots, pick, k).piece;
            Parse(InTurn(false, Ids(tasks)), piece.trace) == Some(QUIET) && Silent(piece.trace) && Hushed(piece)
    decreases Work(tasks)
  {
    if tasks != [] {
      var p := pick(k).tool % |tasks|;
      var m := Proceed(tasks[p], pick(k).updates);
      WorkShrinks(tasks, p, pick(k).updates);
      var next, filled := Advance(tasks, p, m), Fill(slots, tasks[p], m);
      InterleaveParses(next, filled, pick, k + 1);
      ProceedParses(tasks, p, pick(k).updates);
      var rest := Interleave(next, filled, pick, k + 1).piece;
      ParseChain(InTurn(false, Ids(tasks)), m.events, InTurn(false, Ids(next)), rest.trace, QUIET);
      JoinHushed(Emitted(tasks[p], m), rest);
    }
  }

  // --- one call after the other ---

  lemma ExecutionParses(c: Call, p: Plan, pick: Schedule)
    ensures var piece := Execution(c, p, pick);
            Parse(InTurn(false, multiset{c.id}), piece.trace) == Some(QUIET) && Silent(piece.trace) && Hushed(piece)
  {
    if p.Immediate? {
      TakeBack(multiset{}, c.id);
      assert multiset{} + multiset{c.id} == multiset{c.id};
      ParseOne(InTurn(false, multiset{c.id}), ToolEnd(c, p.outcome));
    } else {
      IdsLast([], NewTask(0, c, p));
      assert [] + [NewTask(0, c, p)] == [NewTask(0, c, p)] && Ids([]) + multiset{c.id} == multiset{c.id};
      InterleaveParses([NewTask(0, c, p)], [], pick, 0);
    }
  }

  /** A stretch within a turn that leaves it quiet and closes exactly the given messages. */
  ghost predicate Sound(piece: Piece, messages: seq<Message>) {
    Parse(QUIET, piece.trace) == Some(QUIET) && MessageEnds(piece.trace) == messages && Hushed(piece)
  }

  lemma JoinSound(a: Piece, ms: seq<Message>, b: Piece, ns: seq<Message>)
    requires Sound(a, ms) && Sound(b, ns)
    ensures Sound(Join(a, b), ms + ns)
  {
    ParseChain(QUIET, a.trace, QUIET, b.trace, QUIET);
    MessageEndsAppend(a.trace, b.trace);
  }

  lemma PairsSound(ms: seq<Message>)
    ensures Sound(Plainly(Pairs(ms)), ms)
  {
    PairsParse(ms);
    PairsEnd(ms);
  }

  lemma CallSound(c: Call, p: Plan, pick: Schedule)
    ensures Sound(CallPiece(c, p, pick), [ResultOf(c, p)])
  {
    var start, execution := Plainly([ToolStart(c)]), Execution(c, p, pick);
    ExecutionParses(c, p, pick);
    ParseOne(QUIET, ToolStart(c));
    assert multiset{} + multiset{c.id} == multiset{c.id};
    ParseChain(QUIET, start.trace, InTurn(false, multiset{c.id}), execution.trace, QUIET);
    SilentEnds(Join(start, execution).trace);
    PairParses(ResultOf(c, p));
    PairEnds(ResultOf(c, p));
    JoinSound(Join(start, execution), [], Plainly(Pair(ResultOf(c, p))), [ResultOf(c, p)]);
    assert [] + [ResultOf(c, p)] == [ResultOf(c, p)];
  }

  lemma {:induction false} PiecesSound(calls: seq<Call>, plan: nat -> Plan, n: nat, f: (nat, Call, Plan) -> Piece)
    requires n <= |calls| && forall i: nat, c, p :: Sound(f(i, c, p), [ResultOf(c, p)])
    ensures Sound(Pieces(calls, plan, n, f), Results(calls, plan, n))
  {
    if n > 0 {
      PiecesSound(calls, plan, n - 1, f);
      JoinSound(Pieces(calls, plan, n - 1, f), Results(calls, plan, n - 1),
                f(n - 1, calls[n - 1], plan(n - 1)), [ResultOf(calls[n - 1], plan(n - 1))]);
    }
  }

  lemma SequentialSound(calls: seq<Call>, o: Oracle)
    ensures Sound(Sequential(calls, o).piece, Sequential(calls, o).messages)
  {
    var f := (i: nat, c: Call, p: Plan) => CallPiece(c, p, o.schedule(i));
    forall i: nat, c, p ensures Sound(f(i, c, p), [ResultOf(c, p)]) { CallSound(c, p, o.schedule(i)); }
    PiecesSound(calls, o.plan, Started(calls, o.aborted, 0), f);
  }

  // --- all calls together ---

  lemma StartEventsParse(tasks: seq<Task>, at: nat, c: Call, p: Plan)
    ensures Parse(InTurn(false, Ids(tasks)), StartEvents(c, p)) == Some(InTurn(false, Ids(WithTask(tasks, at, c, p))))
  {
    var phase := InTurn(false, Ids(tasks));
    var began := InTurn(false, Ids(tasks) + multiset{c.id});
    assert Accept(phase, ToolStart(c)) == Some(began);
    ParseOne(phase, ToolStart(c));
    if p.Immediate? {
      TakeBack(Ids(tasks), c.id);
      ParseOne(began, ToolEnd(c, p.outcome));
      ParseChain(phase, [ToolStart(c)], began, [ToolEnd(c, p.outcome)], phase);
      assert StartEvents(c, p) == [ToolStart(c)] + [ToolEnd(c, p.outcome)];
    } else {
      IdsLast(tasks, NewTask(at, c, p));
    }
  }

  /** A start loop whose steps open what the tasks they add need. */
  lemma {:induction false} StartsParse(calls: seq<Call>, plan: nat -> Plan, n: nat, f: (nat, Call, Plan) -> Piece,
                                       at: seq<Task> -> Phase)
    requires n <= |calls|
    requires forall tasks, i: nat, c, p {:trigger f(i, c, p), WithTask(tasks, i, c, p)} ::
               Parse(at(tasks), f(i, c, p).trace) == Some(at(WithTask(tasks, i, c, p)))
    ensures Parse(at([]), Pieces(calls, plan, n, f).trace) == Some(at(Tasks(calls, plan, n)))
  {
    if n > 0 {
      var before, tasks, c, p := Pieces(calls, plan, n - 1, f), Tasks(calls, plan, n - 1), calls[n - 1], plan(n - 1);
      var after := WithTask(tasks, n - 1, c, p);
      assert Tasks(calls, plan, n) == after && Pieces(calls, plan, n, f).trace == before.trace + f(n - 1, c, p).trace;
      assert Parse(at(tasks), f(n - 1, c, p).trace) == Some(at(after));
      StartsParse(calls, plan, n - 1, f, at);
      ParseChain(at([]), before.trace, at(tasks), f(n - 1, c, p).trace, at(after));
    }
  }

  lemma {:induction false} PiecesQuiet(calls: seq<Call>, plan: nat -> Plan, n: nat, f: (nat, Call, Plan) -> Piece)
    requires n <= |calls| && forall i: nat, c, p :: Silent(f(i, c, p).trace) && Hushed(f(i, c, p))
    ensures Silent(Pieces(calls, plan, n, f).trace) && Hushed(Pieces(calls, plan, n, f))
  {
    if n > 0 { PiecesQuiet(calls, plan, n - 1, f); }
  }

  lemma StartParses(calls: seq<Call>, plan: nat -> Plan, n: nat)
    requires n <= |calls|
    ensures Parse(QUIET, StartPiece(calls, plan, n).trace) == Some(InTurn(false, Ids(Tasks(calls, plan, n))))
  {
    var at := (tasks: seq<Task>) => InTurn(false, Ids(tasks));
    var f := (i: nat, c: Call, p: Plan) => Plainly(StartEvents(c, p));
    forall tasks, i: nat, c, p ensures Parse(at(tasks), f(i, c, p).trace) == Some(at(WithTask(tasks, i, c, p))) {
      StartEventsParse(tasks, i, c, p);
    }
    StartsParse(calls, plan, n, f, at);
  }

  lemma StartQuiet(calls: seq<Call>, plan: nat -> Plan, n: nat)
    requires n <= |calls|
    ensures Silent(StartPiece(calls, plan, n).trace) && Hushed(StartPiece(calls, plan, n))
  {
    var f := (i: nat, c: Call, p: Plan) => Plainly(StartEvents(c, p));
    forall i: nat, c, p ensures Silent(f(i, c, p).trace) && Hushed(f(i, c, p)) {}
    PiecesQuiet(calls, plan, n, f);
  }

  /** The start loop and the tools it leaves running, until the last of them has ended. */
  lemma ToolsSound(a: Piece, tasks: seq<Task>, slots: seq<Option<Outcome>>, pick: Schedule)
    requires Parse(QUIET, a.trace) == Some(InTurn(false, Ids(tasks))) && Silent(a.trace) && Hushed(a)
    ensures Sound(Join(a, Interleave(tasks, slots, pick, 0).piece), [])
  {
    var b := Interleave(tasks, slots, pick, 0).piece;
    InterleaveParses(tasks, slots, pick, 0);
    ParseChain(QUIET, a.trace, InTurn(false, Ids(tasks)), b.trace, QUIET);
    JoinHushed(a, b);
    SilentEnds(Join(a, b).trace);
  }

  lemma ParallelSound(calls: seq<Call>, o: Oracle)
    ensures Sound(Parallel(calls, o).piece, Parallel(calls, o).messages)
  {
    var n := Started(calls, o.aborted, 0);
    var tasks, slots := Tasks(calls, o.plan, n), Entries(o.plan, n);
    var a, b := StartPiece(calls, o.plan, n), Interleave(tasks, slots, o.schedule(0), 0).piece;
    var messages := Parallel(calls, o).messages;
    StartParses(calls, o.plan, n);
    StartQuiet(calls, o.plan, n);
    ToolsSound(a, tasks, slots, o.schedule(0));
    PairsSound(messages);
    JoinSound(Join(a, b), [], Plainly(Pairs(messages)), messages);
    assert [] + messages == messages;
  }
}
