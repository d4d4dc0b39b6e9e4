/** The tools of one assistant message: what a call does, how running tools interleave, and one call at a time. */
module ToolBatch {
  import opened Basics
  import opened AgentEvents

  /**
   * How one call goes: settled during preparation, or a tool that calls onUpdate with each of `updates`, the first
   * `settles` of them before its promise settles and the others at any time after.
   */
  datatype Plan = Immediate(outcome: Outcome) | Prepared(updates: seq<nat>, settles: nat, outcome: Outcome)

  /**
   * The scheduler's choice: the running tool that proceeds, and whether a settled tool calls onUpdate once more
   * first.
   */
  datatype Pick = Pick(tool: nat, updates: bool)

  type Schedule = nat -> Pick

  /**
   * What the tools, hooks and the scheduler decide: the course of the i-th call, whether the signal is found aborted
   * after it, and the schedule while the i-th call runs alone, or, for i = 0, while all calls run.
   */
  datatype Oracle = Oracle(plan: nat -> Plan, aborted: nat -> bool, schedule: nat -> Schedule)

  /** acceptingUpdates: open until the code awaiting the tool continues. */
  datatype Gate = Open | Shut

  /** A running tool: its place in the batch, the onUpdate calls it has yet to make, `due` of them before it settles. */
  datatype Task = Task(at: nat, call: Call, updates: seq<nat>, due: nat, gate: Gate, outcome: Outcome)

  /** A tool that may go on calling onUpdate although its end was emitted, `since` events into the trace. */
  datatype Stray = Stray(since: nat, task: Task)

  /** A stretch of a trace with the tools that ended in it. */
  datatype Piece = Piece(trace: seq<Event>, strays: seq<Stray>)

  const SILENCE := Piece([], [])

  function Shift(strays: seq<Stray>, n: nat): (r: seq<Stray>)
    ensures |r| == |strays| && forall i :: 0 <= i < |r| ==> r[i] == Stray(strays[i].since + n, strays[i].task)
  {
    seq(|strays|, i requires 0 <= i < |strays| => Stray(strays[i].since + n, strays[i].task))
  }

  function Join(a: Piece, b: Piece): Piece {
    Piece(a.trace + b.trace, a.strays + Shift(b.strays, |a.trace|))
  }

  lemma JoinAssoc(a: Piece, b: Piece, c: Piece)
    ensures Join(a, Join(b, c)) == Join(Join(a, b), c)
  {
    Assoc(a.trace, b.trace, c.trace);
    assert Join(a, Join(b, c)).strays == Join(Join(a, b), c).strays;
  }

  lemma JoinSilence(a: Piece)
    ensures Join(a, SILENCE) == a && Join(SILENCE, a) == a
  {
    assert Join(SILENCE, a).strays == a.strays;
  }

  // --- one step of one tool ---

  /** The onUpdate callback. */
  function OnUpdate(t: Task): seq<Event>
    requires t.updates != []
  {
    if t.gate == Open then [ToolUpdate(t.call, t.updates[0])] else []
  }

  function Called(t: Task): Task
    requires t.updates != []
  {
    t.(updates := t.updates[1..], due := if t.due == 0 then 0 else t.due - 1)
  }

  /** Before it settles a tool can only call onUpdate; afterwards the scheduler may let its continuation run first. */
  predicate Calls(t: Task, updates: bool) { t.updates != [] && (t.due > 0 || updates) }

  /** What a step emits, and the tool after it; none when its end was emitted. */
  datatype Move = Move(events: seq<Event>, task: Option<Task>)

  /** executePreparedToolCall and what its caller emits: an update, the closing of the gate, or the end. */
  function Proceed(t: Task, updates: bool): Move {
    if Calls(t, updates) then Move(OnUpdate(t), Some(Called(t)))
    else if t.gate == Open then Move([], Some(t.(gate := Shut)))
    else Move([ToolEnd(t.call, t.outcome)], None)
  }

  function Remove(tasks: seq<Task>, p: nat): seq<Task>
    requires p < |tasks|
  {
    tasks[..p] + tasks[p + 1..]
  }

  function Advance(tasks: seq<Task>, p: nat, m: Move): seq<Task>
    requires p < |tasks|
  {
    if m.task.Some? then tasks[p := m.task.value] else Remove(tasks, p)
  }

  /** A promise of Promise.all resolves into its own place. */
  function Fill(slots: seq<Option<Outcome>>, t: Task, m: Move): (r: seq<Option<Outcome>>)
    ensures |r| == |slots|
  {
    if m.task.None? && t.at < |slots| then slots[t.at := Some(t.outcome)] else slots
  }

  function Emitted(t: Task, m: Move): Piece {
    Piece(m.events, if m.task.None? then [Stray(|m.events|, t)] else [])
  }

  // --- running tools ---

  function Steps(t: Task): nat { |t.updates| + if t.gate == Open then 2 else 1 }

  function Work(tasks: seq<Task>): nat {
    if tasks == [] then 0 else Steps(tasks[0]) + Work(tasks[1..])
  }

  lemma {:induction false} WorkSplits(a: seq<Task>, b: seq<Task>)
    ensures Work(a + b) == Work(a) + Work(b)
  {
    if a == [] {
      assert a + b == b;
    } else {
      assert (a + b)[1..] == a[1..] + b;
      WorkSplits(a[1..], b);
    }
  }

  lemma WorkAt(tasks: seq<Task>, p: nat, t: Task)
    requires p < |tasks|
    ensures Work(tasks) == Work(Remove(tasks, p)) + Steps(tasks[p])
    ensures Work(tasks[p := t]) == Work(Remove(tasks, p)) + Steps(t)
  {
    var a, b := tasks[..p], tasks[p + 1..];
    WorkSplits(a, b);
    WorkSplits(a, [tasks[p]] + b);
    WorkSplits(a, [t] + b);
    assert tasks == a + ([tasks[p]] + b) && tasks[p := t] == a + ([t] + b);
    assert ([tasks[p]] + b)[1..] == b && ([t] + b)[1..] == b;
  }

  lemma WorkShrinks(tasks: seq<Task>, p: nat, updates: bool)
    requires p < |tasks|
    ensures Work(Advance(tasks, p, Proceed(tasks[p], updates))) < Work(tasks)
  {
    var m := Proceed(tasks[p], updates);
    WorkAt(tasks, p, if m.task.Some? then m.task.value else tasks[p]);
  }

  datatype Played = Played(piece: Piece, slots: seq<Option<Outcome>>)

  /** The scheduler lets the running tools proceed until none is left. */
  function Interleave(tasks: seq<Task>, slots: seq<Option<Outcome>>, pick: Schedule, k: nat): Played
    decreases Work(tasks)
  {
    if tasks == [] then Played(SILENCE, slots)
    else
      var p := pick(k).tool % |tasks|;
      var m := Proceed(tasks[p], pick(k).updates);
      WorkShrinks(tasks, p, pick(k).updates);
      var rest := Interleave(Advance(tasks, p, m), Fill(slots, tasks[p], m), pick, k + 1);
      Played(Join(Emitted(tasks[p], m), rest.piece), rest.slots)
  }

  /** Promise.all, or the await of a single tool. */
  method AwaitAll(tasks: seq<Task>, slots: seq<Option<Outcome>>, pick: Schedule)
    returns (piece: Piece, filled: seq<Option<Outcome>>)
    ensures Played(piece, filled) == Interleave(tasks, slots, pick, 0)
  {
    var live, k := tasks, 0;
    piece, filled := SILENCE, slots;
    JoinSilence(Interleave(tasks, slots, pick, 0).piece);
    while live != []
      invariant var rest := Interleave(live, filled, pick, k);
                Interleave(tasks, slots, pick, 0) == Played(Join(piece, rest.piece), rest.slots)
      decreases Work(live)
    {
      var p := pick(k).tool % |live|;
      var t := live[p];
      var m := Proceed(t, pick(k).updates);
      WorkShrinks(live, p, pick(k).updates);
      ghost var rest := Interleave(Advance(live, p, m), Fill(filled, t, m), pick, k + 1);
      JoinAssoc(piece, Emitted(t, m), rest.piece);
      piece, filled := Join(piece, Emitted(t, m)), Fill(filled, t, m);
      live, k := Advance(live, p, m), k + 1;
    }
    JoinSilence(piece);
  }

  // --- batches ---

  datatype Batch = Batch(messages: seq<Message>, terminate: bool, piece: Piece)

  /** The calls started: all of them, or up to the first after which the signal is aborted. */
  function Started(calls: seq<Call>, aborted: nat -> bool, from: nat): (n: nat)
    requires from <= |calls|
    ensures from <= n <= |calls|
    ensures forall i :: from <= i < n - 1 ==> !aborted(i)
    ensures n < |calls| ==> n > from && aborted(n - 1)
    ensures from < |calls| ==> n > from
    decreases |calls| - from
  {
    if from == |calls| then from else if aborted(from) then from + 1 else Started(calls, aborted, from + 1)
  }

  function ResultOf(c: Call, p: Plan): Message { ToolResult(c, p.outcome) }

  /** The result messages of the first `n` calls in source order. */
  function Results(calls: seq<Call>, plan: nat -> Plan, n: nat): (r: seq<Message>)
    requires n <= |calls|
    ensures |r| == n && forall i :: 0 <= i < n ==> r[i] == ResultOf(calls[i], plan(i))
  {
    if n == 0 then [] else Results(calls, plan, n - 1) + [ResultOf(calls[n - 1], plan(n - 1))]
  }

  /** shouldTerminateToolBatch over the results. */
  predicate ShouldTerminate(results: seq<Message>) {
    results != [] && forall m :: m in results ==> m.ToolResult? && m.outcome.terminate
  }

  method EveryTerminates(results: seq<Message>) returns (all: bool)
    ensures all == ShouldTerminate(results)
  {
    for i := 0 to |results|
      invariant forall j :: 0 <= j < i ==> results[j].ToolResult? && results[j].outcome.terminate
    {
      if !results[i].ToolResult? || !results[i].outcome.terminate {
        assert results[i] in results;
        return false;
      }
    }
    all := |results| > 0;
  }

  /** What one call after the other contributes, `f` giving the piece of the i-th. */
  function Pieces(calls: seq<Call>, plan: nat -> Plan, n: nat, f: (nat, Call, Plan) -> Piece): Piece
    requires n <= |calls|
  {
    if n == 0 then SILENCE
    else Join(Pieces(calls, plan, n - 1, f), f(n - 1, calls[n - 1], plan(n - 1)))
  }

  // --- one call after the other ---

  function NewTask(at: nat, c: Call, p: Plan): Task
    requires p.Prepared?
  {
    Task(at, c, p.updates, p.settles, Open, p.outcome)
  }

  function Plainly(events: seq<Event>): Piece { Piece(events, []) }

  /** The events between a call's start and its result message. */
  function Execution(c: Call, p: Plan, pick: Schedule): Piece {
    if p.Immediate? then Plainly([ToolEnd(c, p.outcome)]) else Interleave([NewTask(0, c, p)], [], pick, 0).piece
  }

  /** All events of a call that is executed on its own. */
  function CallPiece(c: Call, p: Plan, pick: Schedule): Piece {
    Join(Join(Plainly([ToolStart(c)]), Execution(c, p, pick)), Plainly(Pair(ResultOf(c, p))))
  }

  function SequentialPiece(calls: seq<Call>, o: Oracle, n: nat): Piece
    requires n <= |calls|
  {
    Pieces(calls, o.plan, n, (i: nat, c: Call, p: Plan) => CallPiece(c, p, o.schedule(i)))
  }

  function Sequential(calls: seq<Call>, o: Oracle): Batch {
    var n := Started(calls, o.aborted, 0);
    var messages := Results(calls, o.plan, n);
    Batch(messages, ShouldTerminate(messages), SequentialPiece(calls, o, n))
  }

  /** The body of the sequential loop. */
  method ExecuteOne(c: Call, p: Plan, pick: Schedule) returns (result: Message, piece: Piece)
    ensures result == ResultOf(c, p) && piece == CallPiece(c, p, pick)
  {
    var execution := Plainly([ToolEnd(c, p.outcome)]);
    if p.Prepared? {
      var slots;
      execution, slots := AwaitAll([NewTask(0, c, p)], [], pick);
    }
    result := ToolResult(c, p.outcome);
    piece := Join(Join(Plainly([ToolStart(c)]), execution), Plainly(Pair(result)));
  }

  lemma OneMore(calls: seq<Call>, o: Oracle, i: nat)
    requires i < |calls|
    ensures SequentialPiece(calls, o, i + 1)
         == Join(SequentialPiece(calls, o, i), CallPiece(calls[i], o.plan(i), o.schedule(i)))
    ensures Results(calls, o.plan, i + 1) == Results(calls, o.plan, i) + [ResultOf(calls[i], o.plan(i))]
  {}

  method ExecuteToolCallsSequential(calls: seq<Call>, o: Oracle) returns (b: Batch)
    ensures b == Sequential(calls, o)
  {
    var messages, piece := [], SILENCE;
    var i := 0;
    while i < |calls|
      invariant i <= |calls| && Started(calls, o.aborted, 0) == Started(calls, o.aborted, i)
      invariant messages == Results(calls, o.plan, i) && piece == SequentialPiece(calls, o, i)
    {
      OneMore(calls, o, i);
      var result, one := ExecuteOne(calls[i], o.plan(i), o.schedule(i));
      piece := Join(piece, one);
      messages := messages + [result];
      i := i + 1;
      if o.aborted(i - 1) { break; }
    }
    var terminate := EveryTerminates(messages);
    b := Batch(messages, terminate, piece);
  }
}
