/**
 * One launch of the full-session adapter as a machine over its await points, with stop and cancel arriving
 * at any moment and the launched resource ending on its own.
 */
module FullSessionLaunch {

  /** What a launch that does not throw resolves with. */
  datatype Answer = StoppedDuringLaunch | CancelledDuringLaunch | OwnCompletion

  /** The await the launch coroutine is suspended in. */
  datatype Phase =
    | AwaitResource
    | AwaitStop(answer: Answer)
    | AwaitCancel
    | AwaitCompletion
    | AwaitStopAfterError
    | Returned(answer: Answer)
    | Threw

  /**
   * `stops` and `cancels` count calls of the resource's stop and cancel, `moves` those of control.transition;
   * `early` and `warned` say that stop and cancel came before the resource. Not every resource can cancel.
   */
  datatype Op = Op(
    phase: Phase, resource: bool, cancellable: bool, handedOff: bool, stopRequested: bool, cancelRequested: bool,
    stops: nat, cancels: nat, moves: nat, ended: bool, early: bool, warned: bool)

  datatype Event =
    | LauncherResolves(cancellable: bool, moveThrows: bool)
    | LauncherRejects
    | StopSettles(ok: bool)
    | CancelSettles(accepted: bool)
    | CancelRejects
    | ResourceEnds
    | CompletionSettles(ok: bool)

  const BEGUN := Op(AwaitResource, false, false, false, false, false, 0, 0, 0, false, false, false)

  predicate Settled(op: Op) { op.phase.Returned? || op.phase == Threw }

  /** The catch clause: stop a resource that was not handed off, then rethrow. */
  function Catch(op: Op): Op {
    if op.resource && !op.handedOff then op.(stops := op.stops + 1, phase := AwaitStopAfterError)
    else op.(phase := Threw)
  }

  function StopResource(op: Op, answer: Answer): Op { op.(stops := op.stops + 1, phase := AwaitStop(answer)) }

  /** A cancel that came before the resource is passed on, or the resource is stopped. */
  function PassCancel(op: Op): Op {
    if op.cancellable then op.(cancels := op.cancels + 1, phase := AwaitCancel)
    else StopResource(op, CancelledDuringLaunch)
  }

  /** The transition that hands the resource over to the service. */
  function HandOver(op: Op, moveThrows: bool): Op {
    var moved := op.(moves := op.moves + 1);
    if moveThrows then Catch(moved) else moved.(handedOff := true, phase := AwaitCompletion)
  }

  /** The launch coroutine, from the resource's arrival to its next await. */
  function Arrive(op: Op, cancellable: bool, moveThrows: bool): Op {
    var here := op.(resource := true, cancellable := cancellable);
    if here.stopRequested then StopResource(here, StoppedDuringLaunch)
    else if here.cancelRequested then PassCancel(here)
    else HandOver(here, moveThrows)
  }

  /** A settlement the coroutine is not waiting for changes nothing. */
  function Step(op: Op, e: Event): Op {
    match e
    case LauncherResolves(cancellable, moveThrows) =>
      if op.phase == AwaitResource then Arrive(op, cancellable, moveThrows) else op
    case LauncherRejects => if op.phase == AwaitResource then Catch(op) else op
    case StopSettles(ok) =>
      if op.phase.AwaitStop? then (if ok then op.(phase := Returned(op.phase.answer)) else Catch(op))
      else if op.phase == AwaitStopAfterError then op.(phase := Threw)
      else op
    case CancelSettles(accepted) =>
      if op.phase != AwaitCancel then op
      else if accepted then op.(phase := AwaitCompletion)
      else StopResource(op, CancelledDuringLaunch)
    case CancelRejects => if op.phase == AwaitCancel then Catch(op) else op
    case ResourceEnds => if op.resource then op.(ended := true) else op
    case CompletionSettles(ok) =>
      if op.phase != AwaitCompletion || !op.ended then op
      else if ok then op.(phase := Returned(OwnCompletion))
      else Catch(op)
  }

  /** stop and cancel, once they found the operation. */
  function Stop(op: Op): Op {
    op.(stopRequested := true,
        stops := if op.resource then op.stops + 1 else op.stops,
        early := op.early || (!op.resource && op.phase == AwaitResource))
  }

  function Cancel(op: Op): Op {
    op.(cancelRequested := true,
        cancels := if op.resource && op.cancellable then op.cancels + 1 else op.cancels,
        warned := op.warned || (!op.resource && op.phase == AwaitResource))
  }

  /** A launch answers CANCELLED only if that was asked for and no transition was made, else what its session says. */
  ghost predicate Answered(op: Op, answer: Answer) {
    match answer
    case StoppedDuringLaunch => op.stopRequested && op.moves == 0 && op.stops > 0
    case CancelledDuringLaunch => op.cancelRequested && op.moves == 0 && op.stops > 0
    case OwnCompletion => op.ended && (op.handedOff || op.cancels > 0)
  }

  ghost predicate Inv(op: Op) {
    && (op.phase == AwaitResource ==>
          !op.resource && op.stops == 0 && op.cancels == 0 && op.moves == 0 && !op.handedOff)
    && (op.phase.AwaitStop? || op.phase in {AwaitCancel, AwaitCompletion, AwaitStopAfterError} ==> op.resource)
    && (op.phase.AwaitStop? || op.phase == AwaitStopAfterError ==> op.stops > 0)
    && (op.phase == AwaitCancel ==> op.cancelRequested && op.cancels > 0 && op.moves == 0)
    && (op.phase == AwaitCompletion ==> op.handedOff || op.cancels > 0)
    && (op.handedOff ==> op.resource && op.moves == 1 && (op.phase == AwaitCompletion || Settled(op)))
    && (Settled(op) && op.resource ==> op.ended || op.stops > 0)
    && (op.phase.AwaitStop? ==> op.phase.answer != OwnCompletion && Answered(op, op.phase.answer) && !op.handedOff)
    && (op.phase.Returned? ==> op.resource && Answered(op, op.phase.answer))
    && (op.early ==> op.stopRequested && op.moves == 0 && !op.handedOff && (op.resource ==> op.stops > 0))
    && (op.warned ==> op.cancelRequested && op.moves == 0 && !op.handedOff
                      && (op.resource ==> op.stops > 0 || op.cancels > 0))
    && (!op.resource ==> op.moves == 0) && op.moves <= 1
  }

  lemma ArriveKeeps(op: Op, cancellable: bool, moveThrows: bool)
    requires Inv(op) && op.phase == AwaitResource
    ensures Inv(Arrive(op, cancellable, moveThrows))
  {}

  lemma CatchKeeps(op: Op)
    requires Inv(op) && !Settled(op) && (op.resource && op.handedOff ==> op.ended || op.stops > 0)
    ensures Inv(Catch(op))
  {}

  lemma StopKeeps(op: Op, ok: bool)
    requires Inv(op)
    ensures Inv(Step(op, StopSettles(ok)))
  {
    if op.phase.AwaitStop? && !ok { CatchKeeps(op); }
  }

  lemma CancelKeeps(op: Op, accepted: bool)
    requires Inv(op)
    ensures Inv(Step(op, CancelSettles(accepted)))
  {}

  lemma EndKeeps(op: Op, ok: bool)
    requires Inv(op)
    ensures Inv(Step(op, ResourceEnds)) && Inv(Step(op, CompletionSettles(ok)))
  {
    if op.phase == AwaitCompletion && op.ended && !ok { CatchKeeps(op); }
  }

  lemma StepKeeps(op: Op, e: Event)
    requires Inv(op)
    ensures Inv(Step(op, e)) && (Settled(op) ==> Settled(Step(op, e)))
    ensures (op.early ==> Step(op, e).early) && (op.warned ==> Step(op, e).warned)
  {
    match e
    case LauncherResolves(cancellable, moveThrows) =>
      if op.phase == AwaitResource { ArriveKeeps(op, cancellable, moveThrows); }
    case LauncherRejects => if op.phase == AwaitResource { CatchKeeps(op); }
    case StopSettles(ok) => StopKeeps(op, ok);
    case CancelSettles(accepted) => CancelKeeps(op, accepted);
    case CancelRejects => if op.phase == AwaitCancel { CatchKeeps(op); }
    case ResourceEnds => EndKeeps(op, true);
    case CompletionSettles(ok) => EndKeeps(op, ok);
  }

  lemma CallsKeep(op: Op)
    requires Inv(op)
    ensures Inv(Stop(op)) && (!Settled(op) && !op.resource ==> Stop(op).early)
    ensures Inv(Cancel(op)) && (!Settled(op) && !op.resource ==> Cancel(op).warned)
  {}

  /**
   * What the arrival of the resource leads to: a transition exactly when neither stop nor cancel came before, a
   * hand-off exactly when that did not throw, and otherwise the resource's stop, or its cancel where it has one.
   */
  lemma ArrivalIff(op: Op, cancellable: bool, moveThrows: bool)
    requires Inv(op) && op.phase == AwaitResource
    ensures var s := Step(op, LauncherResolves(cancellable, moveThrows));
            var asked := op.stopRequested || op.cancelRequested;
            && s.resource && (s.moves == 1 <==> !asked) && (s.handedOff <==> !asked && !moveThrows)
            && (s.cancels == 1 <==> !op.stopRequested && op.cancelRequested && cancellable)
            && (s.stops == 1 <==> op.stopRequested || (op.cancelRequested && !cancellable) || (!asked && moveThrows))
            && s.moves <= 1 && s.cancels <= 1 && s.stops <= 1
            && (s.phase == AwaitCompletion <==> s.handedOff) && (s.phase == AwaitCancel <==> s.cancels == 1)
  {}

  /** What a launch that was told to cancel does with the resource's answer, and what it resolves with. */
  lemma CancelAnswerIff(op: Op, accepted: bool)
    requires Inv(op) && op.phase == AwaitCancel
    ensures var s := Step(op, CancelSettles(accepted));
            && (s.phase == AwaitCompletion <==> accepted) && s.stops == op.stops + (if accepted then 0 else 1)
            && (!accepted ==> Step(s, StopSettles(true)).phase == Returned(CancelledDuringLaunch))
            && (accepted ==> Step(Step(s, ResourceEnds), CompletionSettles(true)).phase == Returned(OwnCompletion))
  {}

  /** A rejection makes the launch throw, after stopping a resource that was not handed over. */
  lemma RejectionsAreRethrown(op: Op, e: Event)
    requires Inv(op)
    requires || (e == LauncherRejects && op.phase == AwaitResource)
             || (e == StopSettles(false) && op.phase.AwaitStop?)
             || (e == CancelRejects && op.phase == AwaitCancel)
             || (e == CompletionSettles(false) && op.phase == AwaitCompletion && op.ended)
    ensures var s := Step(op, e);
            if op.resource && !op.handedOff
            then s.stops == op.stops + 1 && forall ok :: Step(s, StopSettles(ok)).phase == Threw
            else s.stops == op.stops && s.phase == Threw
  {}

  /** stop and cancel reach the resource once it is there, cancel only if it can cancel. */
  lemma CallsReach(op: Op)
    ensures Stop(op).stopRequested && Cancel(op).cancelRequested
    ensures op.resource ==> Stop(op).stops == op.stops + 1
    ensures op.resource && op.cancellable <==> Cancel(op).cancels == op.cancels + 1
  {}
}
