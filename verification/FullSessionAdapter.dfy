/** The full-session adapter: all its launches, and the table through which stop and cancel find them. */
module FullSessionAdapter {
  import opened JsText
  import opened FullSessionLaunch

  type Id = Text

  /** Every launch so far with its instance id, and the `operations` map. */
  datatype Table = Table(ops: seq<Op>, ids: seq<Id>, index: map<Id, nat>)

  datatype Move =
    | Launch(id: Id)
    | Advance(k: nat, e: Event)
    | StopCall(id: Id)
    | CancelCall(id: Id)

  const EMPTY := Table([], [], map[])

  function Update(t: Table, k: nat, op: Op): Table
    requires k < |t.ops|
  {
    t.(ops := t.ops[k := op])
  }

  predicate Found(t: Table, id: Id) { id in t.index && t.index[id] < |t.ops| }

  function StepTable(t: Table, m: Move): Table {
    match m
    case Launch(id) => Table(t.ops + [BEGUN], t.ids + [id], t.index[id := |t.ops|])
    case Advance(k, e) =>
      if k >= |t.ops| || k >= |t.ids| then t
      else
        var op := Step(t.ops[k], e);
        var advanced := Update(t, k, op);
        // the finally clause deletes by instance id
        if Settled(op) && !Settled(t.ops[k]) then advanced.(index := t.index - {t.ids[k]}) else advanced
    case StopCall(id) => if Found(t, id) then Update(t, t.index[id], Stop(t.ops[t.index[id]])) else t
    case CancelCall(id) => if Found(t, id) then Update(t, t.index[id], Cancel(t.ops[t.index[id]])) else t
  }

  function RunTable(t: Table, moves: seq<Move>): Table
    decreases |moves|
  {
    if moves == [] then t else RunTable(StepTable(t, moves[0]), moves[1..])
  }

  ghost predicate InvTable(t: Table) {
    && |t.ids| == |t.ops|
    && (forall k :: 0 <= k < |t.ops| ==> Inv(t.ops[k]))
    && (forall id :: id in t.index ==> t.index[id] < |t.ops| && t.ids[t.index[id]] == id)
  }

  /** `t'` continues `t`: the same launches, no settled one reopened, no early stop forgotten. */
  ghost predicate Continues(t: Table, t': Table) {
    && |t.ops| <= |t'.ops| && |t.ids| <= |t'.ids| && t'.ids[..|t.ids|] == t.ids
    && forall k :: 0 <= k < |t.ops| ==>
                     (t.ops[k].early ==> t'.ops[k].early) && (t.ops[k].warned ==> t'.ops[k].warned)
                     && (Settled(t.ops[k]) ==> Settled(t'.ops[k]))
  }

  /** One launch goes on; the others are as they were. */
  lemma UpdateKeeps(t: Table, k: nat, op: Op)
    requires InvTable(t) && k < |t.ops| && Inv(op) && (Settled(t.ops[k]) ==> Settled(op))
    requires (t.ops[k].early ==> op.early) && (t.ops[k].warned ==> op.warned)
    ensures InvTable(Update(t, k, op)) && Continues(t, Update(t, k, op))
  {}

  lemma StepTableKeeps(t: Table, m: Move)
    requires InvTable(t)
    ensures InvTable(StepTable(t, m)) && Continues(t, StepTable(t, m))
  {
    match m
    case Launch(id) =>
    case Advance(k, e) =>
      if k < |t.ops| {
        StepKeeps(t.ops[k], e);
        UpdateKeeps(t, k, Step(t.ops[k], e));
      }
    case StopCall(id) =>
      if Found(t, id) {
        CallsKeep(t.ops[t.index[id]]);
        UpdateKeeps(t, t.index[id], Stop(t.ops[t.index[id]]));
      }
    case CancelCall(id) =>
      if Found(t, id) {
        CallsKeep(t.ops[t.index[id]]);
        UpdateKeeps(t, t.index[id], Cancel(t.ops[t.index[id]]));
      }
  }

  lemma {:induction false} RunTableKeeps(t: Table, moves: seq<Move>)
    requires InvTable(t)
    ensures InvTable(RunTable(t, moves)) && Continues(t, RunTable(t, moves))
    decreases |moves|
  {
    if moves != [] {
      StepTableKeeps(t, moves[0]);
      RunTableKeeps(StepTable(t, moves[0]), moves[1..]);
    }
  }

  /** No launch, in any interleaving, settles with a live resource: its completion settled or stop was called on it. */
  lemma NoResourceLeaks(moves: seq<Move>, k: nat)
    requires k < |RunTable(EMPTY, moves).ops|
    ensures var op := RunTable(EMPTY, moves).ops[k];
            Settled(op) && op.resource ==> op.ended || op.stops > 0
  {
    RunTableKeeps(EMPTY, moves);
  }

  // --- when a stop finds its operation ---

  /** Every launch still running is the one its instance id leads to. */
  ghost predicate Reachable(t: Table) {
    forall k :: 0 <= k < |t.ops| && k < |t.ids| && !Settled(t.ops[k]) ==> t.ids[k] in t.index && t.index[t.ids[k]] == k
  }

  /** The move does not launch an instance id that is still running. */
  ghost predicate Exclusive(t: Table, m: Move) {
    m.Launch? ==> forall k :: 0 <= k < |t.ops| && k < |t.ids| && !Settled(t.ops[k]) ==> t.ids[k] != m.id
  }

  /** Exactly the relaunch of a running id makes a running launch unreachable. */
  lemma ReachableIff(t: Table, m: Move)
    requires InvTable(t) && Reachable(t)
    ensures Reachable(StepTable(t, m)) <==> Exclusive(t, m)
  {
    var t' := StepTable(t, m);
    match m
    case Launch(id) =>
      if k :| 0 <= k < |t.ops| && !Settled(t.ops[k]) && t.ids[k] == id {
        assert t'.ops[k] == t.ops[k] && t'.ids[k] == id;
      }
    case Advance(j, e) =>
      if j < |t.ops| {
        StepKeeps(t.ops[j], e);
        forall k | 0 <= k < |t'.ops| && !Settled(t'.ops[k]) ensures t'.ids[k] in t'.index && t'.index[t'.ids[k]] == k {
          assert !Settled(t.ops[k]);
        }
      }
    case StopCall(_) =>
    case CancelCall(_) =>
  }

  lemma RunFirst(t: Table, m: Move, later: seq<Move>)
    ensures RunTable(t, [m] + later) == RunTable(StepTable(t, m), later)
  {
    assert ([m] + later)[1..] == later;
  }

  lemma LaunchTwice(id: Id, later: seq<Move>)
    ensures RunTable(EMPTY, [Launch(id), Launch(id)] + later)
         == RunTable(Table([BEGUN, BEGUN], [id, id], map[id := 1]), later)
  {
    RunFirst(EMPTY, Launch(id), [Launch(id)] + later);
    RunFirst(StepTable(EMPTY, Launch(id)), Launch(id), later);
    assert [Launch(id)] + ([Launch(id)] + later) == [Launch(id), Launch(id)] + later;
    assert StepTable(StepTable(EMPTY, Launch(id)), Launch(id)) == Table([BEGUN, BEGUN], [id, id], map[id := 1]);
  }

  /** Two launches of one id: only the second can be found, and once the first settles not even that one. */
  lemma RelaunchHides(id: Id)
    ensures var t := RunTable(EMPTY, [Launch(id), Launch(id)]);
            |t.ops| == 2 && !Settled(t.ops[0]) && t.index == map[id := 1] && !Reachable(t)
    ensures var t := RunTable(EMPTY, [Launch(id), Launch(id), Advance(0, LauncherRejects)]);
            |t.ops| == 2 && !Settled(t.ops[1]) && t.index == map[] && !Reachable(t) && StepTable(t, StopCall(id)) == t
  {
    var two, rejects := [Launch(id), Launch(id)], Advance(0, LauncherRejects);
    var t := Table([BEGUN, BEGUN], [id, id], map[id := 1]);
    LaunchTwice(id, []);
    LaunchTwice(id, [rejects]);
    RunFirst(t, rejects, []);
    assert two + [] == two && two + [rejects] == [Launch(id), Launch(id), rejects] && [rejects] + [] == [rejects];
    var t' := StepTable(t, rejects);
    assert t'.ops[1] == BEGUN && t'.ids[1] == id && t'.index == map[];
    assert !Settled(t.ops[0]) && t.ids[0] == id;
  }

  ghost predicate AlwaysExclusive(t: Table, moves: seq<Move>)
    decreases |moves|
  {
    moves == [] || (Exclusive(t, moves[0]) && AlwaysExclusive(StepTable(t, moves[0]), moves[1..]))
  }

  ghost predicate AlwaysReachable(t: Table, moves: seq<Move>)
    decreases |moves|
  {
    Reachable(t) && (moves == [] || AlwaysReachable(StepTable(t, moves[0]), moves[1..]))
  }

  /** Over whole runs: all running launches stay reachable if and only if no running id is launched again. */
  lemma {:induction false} AlwaysReachableIff(t: Table, moves: seq<Move>)
    requires InvTable(t) && Reachable(t)
    ensures AlwaysReachable(t, moves) <==> AlwaysExclusive(t, moves)
    decreases |moves|
  {
    if moves != [] {
      var t' := StepTable(t, moves[0]);
      ReachableIff(t, moves[0]);
      StepTableKeeps(t, moves[0]);
      if Reachable(t') { AlwaysReachableIff(t', moves[1..]); }
    }
  }

  /**
   * A stop that comes before the resource, for a reachable launch: whatever happens later, the launch never moves
   * the record to RUNNING or WAITING_INPUT, and a resource that still arrives is stopped.
   */
  lemma EarlyStopHolds(t: Table, k: nat, later: seq<Move>)
    requires InvTable(t) && Reachable(t) && k < |t.ops| && !Settled(t.ops[k]) && !t.ops[k].resource
    ensures var t' := RunTable(StepTable(t, StopCall(t.ids[k])), later);
            && k < |t'.ops| && t'.ops[k].moves == 0 && !t'.ops[k].handedOff
            && (t'.ops[k].resource ==> t'.ops[k].stops > 0)
  {
    var t1 := StepTable(t, StopCall(t.ids[k]));
    CallsKeep(t.ops[k]);
    StepTableKeeps(t, StopCall(t.ids[k]));
    assert t1.ops[k].early;
    RunTableKeeps(t1, later);
    assert Inv(RunTable(t1, later).ops[k]);
  }

  /**
   * A cancel that comes before the resource, for a reachable launch: whatever happens later, the launch never moves
   * the record to RUNNING or WAITING_INPUT, and a resource that still arrives is told to cancel or is stopped.
   */
  lemma EarlyCancelHolds(t: Table, k: nat, later: seq<Move>)
    requires InvTable(t) && Reachable(t) && k < |t.ops| && !Settled(t.ops[k]) && !t.ops[k].resource
    ensures var t' := RunTable(StepTable(t, CancelCall(t.ids[k])), later);
            && k < |t'.ops| && t'.ops[k].moves == 0 && !t'.ops[k].handedOff
            && (t'.ops[k].resource ==> t'.ops[k].cancels > 0 || t'.ops[k].stops > 0)
  {
    var t1 := StepTable(t, CancelCall(t.ids[k]));
    CallsKeep(t.ops[k]);
    StepTableKeeps(t, CancelCall(t.ids[k]));
    assert t1.ops[k].warned;
    RunTableKeeps(t1, later);
    assert Inv(RunTable(t1, later).ops[k]);
  }

  /** A launch that resolves as cancelled was told so and made no transition; one with a completion had it settle. */
  lemma AnswersAreEarned(moves: seq<Move>, k: nat)
    requires k < |RunTable(EMPTY, moves).ops|
    ensures var op := RunTable(EMPTY, moves).ops[k];
            op.phase.Returned? ==>
              match op.phase.answer
              case StoppedDuringLaunch => op.stopRequested && op.moves == 0 && op.stops > 0
              case CancelledDuringLaunch => op.cancelRequested && op.moves == 0 && op.stops > 0
              case OwnCompletion => op.ended && (op.handedOff || op.cancels > 0)
  {
    RunTableKeeps(EMPTY, moves);
    assert Inv(RunTable(EMPTY, moves).ops[k]);
  }
}
