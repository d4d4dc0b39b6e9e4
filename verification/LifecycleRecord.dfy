/** A lifecycle record object and the steps the service takes on it, proved against LifecycleSteps. */
module LifecycleRecord {
  import opened Basics
  import opened JsText
  import opened LifecycleContract
  import opened LifecycleSteps
  import Q = CompletionStore
  import opened CompletionQueue

  /** The readings one `complete` takes: its timestamp, the digest of its result, and the queue's two clock readings. */
  datatype Readings = Readings(now: int, digest: Text, cleanupAt: int, createdAt: int)

  class Record {
    const who: Identity
    var state: State
    var startedAt: Option<int>
    var completedAt: Option<int>
    var result: Option<Outcome>
    var session: Option<Text>
    ghost var history: seq<State>
    ghost var offers: seq<Q.Input>
    ghost var accepted: bool
    ghost var resolved: nat
    ghost var launch: Launch
    ghost var cancelling: nat
    ghost var stopping: nat

    ghost function View(): Rec
      reads this
    {
      Rec(who, Life(state, startedAt, history), Out(completedAt, result, offers, accepted, resolved),
          session, launch, cancelling, stopping)
    }

    constructor (who: Identity)
      ensures this.who == who && View() == Launched(who)
    {
      this.who := who;
      state, startedAt, completedAt, result, session := PENDING, None, None, None, None;
      history, offers, accepted, resolved := [PENDING], [], false, 0;
      launch, cancelling, stopping := Scheduled, 0, 0;
    }

    /** `transition`. */
    method MoveTo(to: State, now: int) returns (threw: bool)
      modifies this`state, this`startedAt, this`history
      ensures (View(), threw) == Move(old(View()), to, now)
    {
      if !Legal(state, to) { return true; }
      state, history := to, history + [to];
      if to == RUNNING && startedAt.None? { startedAt := Some(now); }
      return false;
    }

    /** What the queue saw of a completion: the last offer, if one was made, and its answer. */
    twostate predicate Offered(queue: MaestroCompletionQueue?, at: Readings, env: Env)
      reads this, queue
    {
      && env.now == at.now && env.digest == at.digest && env.hasQueue == (queue != null)
      && (queue != null ==>
            if |offers| > |old(offers)| then
              var input := offers[|offers| - 1];
              && queue.View() == Q.Step(old(queue.View()), Q.OpEnqueue(input, at.cleanupAt, at.createdAt), queue.config)
              && env.accepts == Q.Enqueue(old(queue.records), old(queue.nextId), input, at.cleanupAt, at.createdAt,
                                          queue.config).1.Ok?
            else queue.View() == old(queue.View()))
    }

    /** The second half of `complete`. */
    method HandOff(c: Completion, at: Readings, queue: MaestroCompletionQueue?) returns (ghost env: Env)
      requires result.Some?
      modifies this`result, this`offers, this`accepted, this`resolved, queue
      ensures View() == old(View()).(out := HandedOff(old(View()).out, who, session, c, env))
      ensures Offered(queue, at, env)
    {
      env := Env(at.now, at.digest, queue != null, false);
      resolved := resolved + 1;
      if !HasParent(who) || c.handoff.Some? { return; }
      if queue == null {
        result := Some(result.value.(handoff := HandoffFailed));
        return;
      }
      var input := QueueInput(who, session, c, result.value.hash, at.now);
      var reply := queue.EnqueueCompletion(input, at.cleanupAt, at.createdAt);
      offers, accepted := offers + [input], reply.Ok?;
      env := env.(accepts := reply.Ok?);
      result := Some(result.value.(handoff := if reply.Ok? then Queued else HandoffFailed));
    }

    /** `complete`: the result is written, then the transition may throw, then the queue is offered the result. */
    method CompleteWith(c: Completion, at: Readings, queue: MaestroCompletionQueue?)
      returns (threw: bool, ghost env: Env)
      modifies this`state, this`startedAt, this`history, this`completedAt, this`result,
               this`offers, this`accepted, this`resolved, queue
      ensures (View(), threw) == Complete(old(View()), c, env)
      ensures Offered(queue, at, env)
    {
      env := Env(at.now, at.digest, queue != null, false);
      var hash := if c.hash.Some? then c.hash.value else at.digest;
      completedAt := Some(at.now);
      var handoff := if c.handoff.Some? then c.handoff.value else NotRequired;
      result := Some(Outcome(c.state, hash, startedAt, at.now, handoff));
      threw := MoveTo(StateOf(c.state), at.now);
      if !threw { env := HandOff(c, at, queue); }
    }

    // --- runLaunch, between its awaits ---

    /** From the microtask to the await of adapter.launch. */
    method StartLaunching(at: Readings, queue: MaestroCompletionQueue?) returns (threw: bool, ghost env: Env)
      requires launch == Scheduled
      modifies this, queue
      ensures (View(), threw) == StartLaunch(old(View()), env)
      ensures Offered(queue, at, env)
    {
      env := Env(at.now, at.digest, queue != null, false);
      if Terminal(state) { launch := Finished; return false, env; }
      if state == CANCEL_REQUESTED {
        launch := Finished;
        threw, env := CompleteWith(BeforeLaunch(), at, queue);
        return;
      }
      launch := Awaiting;
      threw := MoveTo(STARTING, at.now);
    }

    /** The try and catch of runLaunch: complete as reported, and as FAILED when that completion throws. */
    method CompleteOrFail(c: Completion, at: Readings, again: Readings, queue: MaestroCompletionQueue?)
      returns (ghost threw: bool, ghost env: Env, ghost retry: Env)
      modifies this`state, this`startedAt, this`history, this`completedAt, this`result,
               this`offers, this`accepted, this`resolved, queue
      ensures threw == Complete(old(View()), c, env).1
      ensures var done := Complete(old(View()), c, env).0;
              View() == if threw then Complete(done, Fallback(done, c), retry).0 else done
      ensures if threw then Offered(queue, again, retry) else Offered(queue, at, env)
    {
      var failed;
      failed, env := CompleteWith(c, at, queue);
      threw, retry := failed, env;
      if failed { failed, retry := CompleteWith(Failure(Illegal(state, StateOf(c.state))), again, queue); }
    }

    /** adapter.launch resolved. */
    method OnLaunchSettled(c: Completion, started: int, at: Readings, again: Readings, queue: MaestroCompletionQueue?)
      returns (ghost env: Env, ghost retry: Env)
      requires launch == Awaiting
      modifies this, queue
      ensures View() == FinishLaunch(old(View()), c, started, env, retry)
      ensures var r := old(View()).(launch := Finished);
              if !Ended(r) && Complete(Resumed(r, started), Reported(r, c, started), env).1
              then Offered(queue, again, retry) else Offered(queue, at, env)
    {
      env, retry := Env(at.now, at.digest, queue != null, false), Env(again.now, again.digest, queue != null, false);
      launch := Finished;
      if Terminal(state) { return; }
      if state == STARTING { var _ := MoveTo(RUNNING, started); }
      ghost var threw;
      threw, env, retry := CompleteOrFail(c.(state := Normalize(state, c.state)), at, again, queue);
    }

    method OnLaunchFailed(message: Text, at: Readings, queue: MaestroCompletionQueue?)
      returns (threw: bool, ghost env: Env)
      requires launch == Awaiting
      modifies this, queue
      ensures (View(), threw) == FailLaunch(old(View()), message, env)
      ensures Offered(queue, at, env)
    {
      env := Env(at.now, at.digest, queue != null, false);
      launch := Finished;
      if Terminal(state) { return false, env; }
      threw, env := CompleteWith(Failure(message), at, queue);
    }

    /** control.transition, called by the adapter. */
    method OnAdapterTransition(waiting: bool, report: Report, now: int) returns (threw: bool)
      requires launch != Scheduled
      modifies this`state, this`startedAt, this`history, this`session
      ensures (View(), threw) == AdapterMove(old(View()), Inputs(waiting), report, now)
    {
      if Terminal(state) { return false; }
      if report.Malformed? { return true; }
      if report.Runtime? { session := report.session; }
      threw := false;
      if state != Inputs(waiting) { threw := MoveTo(Inputs(waiting), now); }
    }

    // --- cancel, stop and setWaitingInput, between their awaits ---

    method CancelUntilAwait(adapterCancels: bool) returns (threw: bool)
      modifies this`state, this`startedAt, this`history, this`cancelling
      ensures (View(), threw) == BeginCancel(old(View()), adapterCancels)
    {
      threw := false;
      if Terminal(state) { return; }
      if state == PENDING { threw := MoveTo(CANCEL_REQUESTED, 0); return; }
      if adapterCancels { cancelling := cancelling + 1; }
    }

    method CancelAfterAwait(adapterAccepted: bool) returns (threw: bool)
      requires cancelling > 0
      modifies this`state, this`startedAt, this`history, this`cancelling
      ensures (View(), threw) == ResumeCancel(old(View()), adapterAccepted)
    {
      cancelling := cancelling - 1;
      threw := false;
      if adapterAccepted && !Terminal(state) && state != CANCEL_REQUESTED { threw := MoveTo(CANCEL_REQUESTED, 0); }
    }

    method StopUntilAwait() returns (threw: bool)
      modifies this`state, this`startedAt, this`history, this`stopping
      ensures (View(), threw) == BeginStop(old(View()))
    {
      threw := false;
      if Terminal(state) { return; }
      if state != CANCEL_REQUESTED { threw := MoveTo(CANCEL_REQUESTED, 0); }
      if !threw { stopping := stopping + 1; }
    }

    method StopAfterAwait(at: Readings, queue: MaestroCompletionQueue?) returns (threw: bool, ghost env: Env)
      requires stopping > 0
      modifies this, queue
      ensures (View(), threw) == ResumeStop(old(View()), env)
      ensures Offered(queue, at, env)
    {
      env := Env(at.now, at.digest, queue != null, false);
      stopping := stopping - 1;
      if Terminal(state) { return false, env; }
      threw, env := CompleteWith(Stopped(), at, queue);
    }

    method SetWaitingInput(waiting: bool, now: int) returns (threw: bool)
      modifies this`state, this`startedAt, this`history
      ensures (View(), threw) == SetInput(old(View()), Inputs(waiting), now)
    {
      threw := false;
      if Terminal(state) || state == CANCEL_REQUESTED || state == PENDING || state == STARTING { return; }
      var target := if waiting then WAITING_INPUT else RUNNING;
      if state != target { threw := MoveTo(target, now); }
    }
  }
}
