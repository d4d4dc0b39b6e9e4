/** The adapter's objects: one operation per launch and the map that finds it, proved against FullSessionLaunch. */
module FullSessionObjects {
  import opened JsText
  import opened FullSessionLaunch
  import opened FullSessionAdapter

  class Operation {
    var phase: Phase
    var resource: bool
    /** The resource has a cancel method. */
    var cancellable: bool
    var handedOff: bool
    var stopRequested: bool
    var cancelRequested: bool
    /** The resource's completion promise has settled. */
    var ended: bool
    ghost var stops: nat
    ghost var cancels: nat
    ghost var moves: nat
    ghost var early: bool
    ghost var warned: bool

    ghost function View(): Op
      reads this
    {
      Op(phase, resource, cancellable, handedOff, stopRequested, cancelRequested, stops, cancels, moves, ended, early,
         warned)
    }

    constructor ()
      ensures View() == BEGUN
    {
      phase, resource, cancellable, handedOff := AwaitResource, false, false, false;
      stopRequested, cancelRequested, ended := false, false, false;
      stops, cancels, moves, early, warned := 0, 0, 0, false, false;
    }

    /** resource.stop() is called and awaited. */
    method CallStop(next: Phase)
      modifies this`stops, this`phase
      ensures View() == old(View()).(stops := old(stops) + 1, phase := next)
    {
      stops, phase := stops + 1, next;
    }

    method CatchError()
      modifies this`stops, this`phase
      ensures View() == Catch(old(View()))
    {
      if resource && !handedOff { CallStop(AwaitStopAfterError); } else { phase := Threw; }
    }

    method OnResource(cancellable: bool, moveThrows: bool)
      requires phase == AwaitResource
      modifies this
      ensures View() == Step(old(View()), LauncherResolves(cancellable, moveThrows))
    {
      Store(cancellable);
      GoOn(moveThrows);
    }

    /** operation.resource = resource */
    method Store(cancellable: bool)
      modifies this`resource, this`cancellable
      ensures View() == old(View()).(resource := true, cancellable := cancellable)
    {
      resource, this.cancellable := true, cancellable;
    }

    /** What was requested while the launcher was awaited comes first. */
    method GoOn(moveThrows: bool)
      modifies this`stops, this`cancels, this`moves, this`handedOff, this`phase
      ensures View() == (if stopRequested then StopResource(old(View()), StoppedDuringLaunch)
                         else if cancelRequested then FullSessionLaunch.PassCancel(old(View()))
                         else FullSessionLaunch.HandOver(old(View()), moveThrows))
    {
      if stopRequested { CallStop(AwaitStop(StoppedDuringLaunch)); }
      else if cancelRequested { PassCancel(); }
      else { HandOver(moveThrows); }
    }

    method PassCancel()
      modifies this`stops, this`cancels, this`phase
      ensures View() == FullSessionLaunch.PassCancel(old(View()))
    {
      if cancellable {
        cancels, phase := cancels + 1, AwaitCancel;
      } else {
        CallStop(AwaitStop(CancelledDuringLaunch));
      }
    }

    method HandOver(moveThrows: bool)
      modifies this`moves, this`stops, this`handedOff, this`phase
      ensures View() == FullSessionLaunch.HandOver(old(View()), moveThrows)
    {
      CountMove();
      if moveThrows { CatchError(); } else { Hand(); }
    }

    method Hand()
      modifies this`handedOff, this`phase
      ensures View() == old(View()).(handedOff := true, phase := AwaitCompletion)
    {
      handedOff, phase := true, AwaitCompletion;
    }

    /** control.transition is called. */
    method CountMove()
      modifies this`moves
      ensures View() == old(View()).(moves := old(moves) + 1)
    {
      moves := moves + 1;
    }

    method OnLauncherRejected()
      requires phase == AwaitResource
      modifies this
      ensures View() == Step(old(View()), LauncherRejects)
    {
      CatchError();
    }

    method OnStopSettled(ok: bool)
      requires phase.AwaitStop? || phase == AwaitStopAfterError
      modifies this
      ensures View() == Step(old(View()), StopSettles(ok))
    {
      if phase == AwaitStopAfterError { phase := Threw; }
      else if ok { phase := Returned(phase.answer); }
      else { CatchError(); }
    }

    method OnCancelSettled(accepted: bool)
      requires phase == AwaitCancel
      modifies this
      ensures View() == Step(old(View()), CancelSettles(accepted))
    {
      if accepted { phase := AwaitCompletion; } else { CallStop(AwaitStop(CancelledDuringLaunch)); }
    }

    method OnCancelRejected()
      requires phase == AwaitCancel
      modifies this
      ensures View() == Step(old(View()), CancelRejects)
    {
      CatchError();
    }

    method OnCompletionSettled(ok: bool)
      requires phase == AwaitCompletion && ended
      modifies this
      ensures View() == Step(old(View()), CompletionSettles(ok))
    {
      if ok { phase := Returned(OwnCompletion); } else { CatchError(); }
    }

    /** The resource ends on its own. */
    method OnResourceEnds()
      requires resource
      modifies this`ended
      ensures View() == Step(old(View()), ResourceEnds)
    {
      ended := true;
    }

    /** Whatever settles next; what the coroutine is not waiting for does not concern it. */
    method Resume(e: Event)
      modifies this
      ensures View() == Step(old(View()), e)
    {
      match e
      case LauncherResolves(cancellable, moveThrows) =>
        if phase == AwaitResource { OnResource(cancellable, moveThrows); }
      case LauncherRejects => if phase == AwaitResource { OnLauncherRejected(); }
      case StopSettles(ok) => if phase.AwaitStop? || phase == AwaitStopAfterError { OnStopSettled(ok); }
      case CancelSettles(accepted) => if phase == AwaitCancel { OnCancelSettled(accepted); }
      case CancelRejects => if phase == AwaitCancel { OnCancelRejected(); }
      case ResourceEnds => if resource { OnResourceEnds(); }
      case CompletionSettles(ok) => if phase == AwaitCompletion && ended { OnCompletionSettled(ok); }
    }

    method RequestStop()
      modifies this`early, this`stopRequested, this`stops
      ensures View() == Stop(old(View()))
    {
      early := early || (!resource && phase == AwaitResource);
      stopRequested := true;
      if resource { stops := stops + 1; }
    }

    method RequestCancel()
      modifies this`warned, this`cancelRequested, this`cancels
      ensures View() == Cancel(old(View()))
    {
      warned := warned || (!resource && phase == AwaitResource);
      cancelRequested := true;
      if resource && cancellable { cancels := cancels + 1; }
    }
  }

  /** The adapter. `launches` are its launch coroutines with their operations; `table` is what the object stands for. */
  class Adapter {
    var operations: map<Text, Operation>
    ghost var launches: seq<Operation>
    ghost var table: Table

    /** Each launch's operation is as the table says, and they are different objects. */
    ghost predicate Tied()
      reads this`launches, this`table, launches
    {
      && |launches| == |table.ops| == |table.ids|
      && (forall k :: 0 <= k < |launches| ==> launches[k].View() == table.ops[k])
      && (forall k, l :: 0 <= k < l < |launches| ==> launches[k] != launches[l])
    }

    /** The map finds the operations the table's index finds. */
    ghost predicate Mapped()
      reads this
    {
      && operations.Keys == table.index.Keys
      && (forall id :: id in table.index ==>
                         table.index[id] < |launches|
                         && operations[id] == launches[table.index[id]])
    }

    ghost predicate Valid()
      reads this, launches
    {
      Tied() && Mapped()
    }

    constructor ()
      ensures Valid() && table == EMPTY
    {
      operations, launches, table := map[], [], EMPTY;
    }

    /** launch up to the await of the launcher. */
    method BeginLaunch(id: Text) returns (op: Operation)
      requires Valid()
      modifies this
      ensures Valid() && fresh(op) && launches == old(launches) + [op]
      ensures table == StepTable(old(table), Launch(id))
    {
      op := new Operation();
      operations := operations[id := op];
      launches := launches + [op];
      table := StepTable(table, Launch(id));
    }

    /** The operation of the k-th launch changed to what the table is told. */
    ghost method Track(k: nat, now: Op)
      requires k < |launches| && |launches| == |table.ops| == |table.ids| && launches[k].View() == now
      requires forall l :: 0 <= l < |launches| && l != k ==> launches[l].View() == table.ops[l]
      requires forall l, m :: 0 <= l < m < |launches| ==> launches[l] != launches[m]
      requires Mapped()
      modifies this`table
      ensures Valid() && table == Update(old(table), k, now)
    {
      table := Update(table, k, now);
    }

    /** The finally clause of a launch. */
    method EndLaunch(id: Text)
      requires Valid()
      modifies this`operations, this`table
      ensures Valid() && table == old(table).(index := old(table).index - {id})
    {
      operations := operations - {id};
      table := table.(index := table.index - {id});
    }

    /** Whatever settles next for the k-th launch; the answer says whether that settled the launch. */
    method Proceed(op: Operation, e: Event, ghost k: nat) returns (settled: bool)
      requires Valid() && k < |launches| && launches[k] == op
      modifies this`table, op
      ensures Valid() && k < |table.ops| && table == Update(old(table), k, Step(old(table).ops[k], e))
      ensures settled == (Settled(table.ops[k]) && !Settled(old(table).ops[k]))
    {
      var before := op.phase.Returned? || op.phase == Threw;
      op.Resume(e);
      ghost var now := op.View();
      Track(k, now);
      settled := !before && (op.phase.Returned? || op.phase == Threw);
    }

    /** One step of the k-th launch coroutine, with its finally clause when that settles it. */
    method Continue(op: Operation, id: Text, e: Event, ghost k: nat)
      requires Valid() && k < |launches| && launches[k] == op && table.ids[k] == id
      modifies this`operations, this`table, op
      ensures Valid() && launches == old(launches) && table == StepTable(old(table), Advance(k, e))
    {
      var settled := Proceed(op, e, k);
      if settled { EndLaunch(id); }
    }

    method StopInstance(id: Text)
      requires Valid()
      modifies this`table, operations.Values
      ensures Valid() && launches == old(launches) && table == StepTable(old(table), StopCall(id))
    {
      if id !in operations { return; }
      ghost var k := table.index[id];
      assert operations[id] == launches[k];
      operations[id].RequestStop();
      Track(k, Stop(table.ops[k]));
    }

    /**
     * Answers true when the launch itself will act on the request; otherwise what the resource answers, if it can
     * cancel.
     */
    method CancelInstance(id: Text, answer: bool) returns (accepted: bool)
      requires Valid()
      modifies this`table, operations.Values
      ensures Valid() && launches == old(launches) && table == StepTable(old(table), CancelCall(id))
      ensures accepted <==>
              && Found(old(table), id)
              && var op := old(table).ops[old(table).index[id]]; !op.resource || (op.cancellable && answer)
    {
      if id !in operations { return false; }
      var op := operations[id];
      ghost var k := table.index[id];
      assert op == launches[k];
      op.RequestCancel();
      Track(k, Cancel(table.ops[k]));
      return !op.resource || (op.cancellable && answer);
    }
  }
}
