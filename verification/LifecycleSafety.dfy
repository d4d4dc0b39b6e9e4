/** What every lifecycle record satisfies at every await point, in every interleaving. */
module LifecycleSafety {
  import opened Basics
  import opened JsText
  import opened LifecycleContract
  import opened LifecycleSteps
  import Q = CompletionStore

  /** The history is legal, ends in the current state, and startedAt dates the first RUNNING. */
  ghost predicate Tracked(life: Life) {
    && LegalHistory(life.history) && life.history[|life.history| - 1] == life.state != UNKNOWN
    && (life.startedAt.Some? <==> RUNNING in life.history)
  }

  /** Not completed, not offered, nobody resolved. */
  ghost predicate Open(out: Out) {
    out == Out(None, None, [], false, 0)
  }

  /** Completed once, as `life` says; offered to the queue at most once, carrying that very result. */
  ghost predicate Closed(out: Out, life: Life, who: Identity) {
    && out.result.Some? && out.completedAt.Some? && out.resolved == 1
    && StateOf(out.result.value.terminal) == life.state
    && out.result.value.startedAt == life.startedAt
    && Some(out.result.value.completedAt) == out.completedAt
    && |out.offers| <= 1 && (out.accepted ==> out.offers != [])
    && (out.offers != [] ==>
          && HasParent(who) && Carries(out.offers[0], out.result.value, who)
          && out.result.value.handoff == if out.accepted then Queued else HandoffFailed)
  }

  ghost predicate Carries(input: Q.Input, outcome: Outcome, who: Identity) {
    && input.child == who.instanceId
    && input.parentInstance == who.parentInstance && input.parentSession == who.parentSession
    && input.terminal == outcome.terminal && input.hash == outcome.hash
    && input.completedAt == Some(outcome.completedAt)
  }

  /** The calls in flight constrain the state. */
  ghost predicate Suspended(r: Rec) {
    && (r.launch == Scheduled ==> r.life.state in {PENDING, CANCEL_REQUESTED} || Ended(r))
    && (r.launch == Awaiting ==> r.life.state != PENDING)
    && (r.launch == Finished ==> Ended(r))
    && (r.stopping > 0 ==> r.life.state == CANCEL_REQUESTED || Ended(r))
    && (r.cancelling > 0 ==> r.life.state != PENDING)
  }

  ghost predicate Inv(r: Rec) {
    && Tracked(r.life) && Suspended(r)
    && if Ended(r) then Closed(r.out, r.life, r.who) else Open(r.out)
  }

  lemma TransitionKeeps(life: Life, to: State, now: int)
    requires Tracked(life) && Legal(life.state, to)
    ensures var l := Transition(life, to, now).0;
            && Tracked(l) && l.state == to && life.history <= l.history
            && (to != RUNNING ==> l.startedAt == life.startedAt)
  {}

  lemma TerminalStatesAreTerminal(t: Q.TerminalState)
    ensures Terminal(StateOf(t))
  {}

  /** Completing a live record, from whatever an earlier throw may have left in `out`, closes it. */
  lemma CompleteKeeps(r: Rec, c: Completion, env: Env)
    requires Tracked(r.life) && r.out.offers == [] && !r.out.accepted && r.out.resolved == 0
    requires Legal(r.life.state, StateOf(c.state))
    ensures var (s, threw) := Complete(r, c, env);
            && !threw && Tracked(s.life) && s.life.state == StateOf(c.state) && Closed(s.out, s.life, s.who)
            && r.life.history <= s.life.history && s == r.(life := s.life, out := s.out)
  {
    TransitionKeeps(r.life, StateOf(c.state), env.now);
  }

  lemma SettleKeeps(r: Rec, c: Completion, started: int, env: Env, retry: Env)
    requires Inv(r.(launch := Awaiting)) && r.launch == Finished
    ensures var s := Settle(r, c, started, env, retry);
            Inv(s) && Ended(s) && r.life.history <= s.life.history && s.who == r.who
  {
    if !Ended(r) {
      if r.life.state == STARTING { TransitionKeeps(r.life, RUNNING, started); }
      var running, c' := Resumed(r, started), Reported(r, c, started);
      TerminalStatesAreTerminal(c'.state);
      if Legal(running.life.state, StateOf(c'.state)) {
        CompleteKeeps(running, c', env);
      } else {
        var done := Complete(running, c', env).0;
        CompleteKeeps(done, Fallback(done, c'), retry);
      }
    }
  }

  /** The invariant holds after a step, and the history only grew. */
  ghost predicate Kept(r: Rec, s: Rec) {
    Inv(s) && r.life.history <= s.life.history && s.who == r.who
  }

  lemma StartLaunchKeeps(r: Rec, env: Env)
    requires Inv(r)
    ensures Kept(r, StartLaunch(r, env).0) && !StartLaunch(r, env).1
  {
    if r.launch == Scheduled && r.life.state == CANCEL_REQUESTED {
      CompleteKeeps(r.(launch := Finished), BeforeLaunch(), env);
    } else if r.launch == Scheduled && !Ended(r) {
      TransitionKeeps(r.life, STARTING, env.now);
    }
  }

  lemma FailLaunchKeeps(r: Rec, message: Text, env: Env)
    requires Inv(r)
    ensures Kept(r, FailLaunch(r, message, env).0) && !FailLaunch(r, message, env).1
  {
    if r.launch == Awaiting && !Ended(r) {
      CompleteKeeps(r.(launch := Finished), Failure(message), env);
    }
  }

  lemma ResumeStopKeeps(r: Rec, env: Env)
    requires Inv(r)
    ensures Kept(r, ResumeStop(r, env).0) && !ResumeStop(r, env).1
  {
    if r.stopping > 0 && !Ended(r) {
      CompleteKeeps(r.(stopping := r.stopping - 1), Stopped(), env);
    }
  }

  lemma CancelKeeps(r: Rec, flag: bool)
    requires Inv(r)
    ensures Kept(r, BeginCancel(r, flag).0) && !BeginCancel(r, flag).1
    ensures Kept(r, ResumeCancel(r, flag).0) && !ResumeCancel(r, flag).1
  {
    if Legal(r.life.state, CANCEL_REQUESTED) { TransitionKeeps(r.life, CANCEL_REQUESTED, 0); }
  }

  lemma BeginStopKeeps(r: Rec)
    requires Inv(r)
    ensures Kept(r, BeginStop(r).0) && !BeginStop(r).1
  {
    if Legal(r.life.state, CANCEL_REQUESTED) { TransitionKeeps(r.life, CANCEL_REQUESTED, 0); }
  }

  lemma MoveKeeps(r: Rec, to: State, now: int)
    requires Inv(r) && r.launch == Awaiting && to in {RUNNING, WAITING_INPUT} && Legal(r.life.state, to)
    ensures Kept(r, Move(r, to, now).0) && !Move(r, to, now).1
  {
    TransitionKeeps(r.life, to, now);
  }

  lemma RuntimeKeeps(r: Rec, report: Report)
    requires Inv(r)
    ensures Kept(r, WithRuntime(r, report)) && WithRuntime(r, report) == r.(session := WithRuntime(r, report).session)
  {}

  /** An adapter callback may attempt a forbidden move; then nothing but the session id may have changed. */
  lemma AdapterMoveKeeps(r: Rec, to: State, report: Report, now: int)
    requires Inv(r) && to in {RUNNING, WAITING_INPUT}
    ensures Kept(r, AdapterMove(r, to, report, now).0)
    ensures AdapterMove(r, to, report, now).1 ==>
              var s := AdapterMove(r, to, report, now).0;
              s == WithRuntime(r, report) == r.(session := s.session) && (report.Malformed? ==> s == r)
  {
    RuntimeKeeps(r, report);
    if r.launch == Awaiting && Legal(r.life.state, to) { MoveKeeps(WithRuntime(r, report), to, now); }
  }

  lemma SetInputKeeps(r: Rec, to: State, now: int)
    requires Inv(r) && to in {RUNNING, WAITING_INPUT}
    ensures Kept(r, SetInput(r, to, now).0) && !SetInput(r, to, now).1
  {
    if r.launch == Awaiting && Legal(r.life.state, to) { MoveKeeps(r, to, now); }
  }

  lemma StepKeeps(r: Rec, e: Event)
    requires Inv(r)
    ensures Kept(r, Step(r, e)) && (StepX(r, e).1 ==> e.AdapterMoves? || e.AdapterUpdates?)
  {
    match e
    case LaunchStarts(env) => StartLaunchKeeps(r, env);
    case AdapterMoves(waiting, report, now) => AdapterMoveKeeps(r, Inputs(waiting), report, now);
    case AdapterUpdates(report) => RuntimeKeeps(r, report);
    case LaunchSettles(c, started, env, retry) =>
      if r.launch == Awaiting { SettleKeeps(r.(launch := Finished), c, started, env, retry); }
    case LaunchFails(message, env) => FailLaunchKeeps(r, message, env);
    case CancelBegins(adapterCancels) => CancelKeeps(r, adapterCancels);
    case CancelResumes(accepted) => CancelKeeps(r, accepted);
    case StopBegins => BeginStopKeeps(r);
    case StopResumes(env) => ResumeStopKeeps(r, env);
    case SetWaiting(waiting, now) => SetInputKeeps(r, Inputs(waiting), now);
  }

  /** Every interleaving of every record keeps the invariant and only ever appends to the history. */
  lemma {:induction false} RunKeeps(r: Rec, events: seq<Event>)
    requires Inv(r)
    ensures Kept(r, Run(r, events))
    decreases |events|
  {
    if events != [] {
      StepKeeps(r, events[0]);
      RunKeeps(Step(r, events[0]), events[1..]);
    }
  }

  lemma LaunchedInv(who: Identity)
    ensures Inv(Launched(who))
  {}

  /** From launch on: completedAt, result and a terminal state come together, and the result names the state. */
  lemma ConsistentAtEveryAwait(who: Identity, events: seq<Event>)
    ensures var r := Run(Launched(who), events);
            && LegalHistory(r.life.history) && r.life.history[|r.life.history| - 1] == r.life.state
            && (r.out.completedAt.Some? <==> Ended(r)) && (r.out.result.Some? <==> Ended(r))
            && (Ended(r) ==> StateOf(r.out.result.value.terminal) == r.life.state)
            && (r.life.startedAt.Some? <==> RUNNING in r.life.history)
            && (Ended(r) <==> r.out.resolved == 1) && |r.out.offers| <= 1
            && (r.out.offers != [] ==> Ended(r) && Carries(r.out.offers[0], r.out.result.value, who))
            && (r.life.state == CANCELLED ==> CANCEL_REQUESTED in r.life.history)
  {
    var r := Run(Launched(who), events);
    LaunchedInv(who);
    RunKeeps(Launched(who), events);
    if r.life.state == CANCELLED { CancelledWasRequested(r.life.history); }
  }

  /** Terminal states are absorbing: state, history, result, offers and resolution never change again. */
  lemma {:induction false} TerminalIsAbsorbing(r: Rec, events: seq<Event>)
    requires Inv(r) && Ended(r)
    ensures Run(r, events).life == r.life && Run(r, events).out == r.out
    decreases |events|
  {
    if events != [] {
      StepKeeps(r, events[0]);
      TerminalIsAbsorbing(Step(r, events[0]), events[1..]);
    }
  }

  /** Once the adapter has settled, and the launch microtask or a stop has run to its end, the record is terminal. */
  lemma SettlementIsFinal(r: Rec, e: Event)
    requires Inv(r)
    requires (r.launch == Awaiting && (e.LaunchSettles? || e.LaunchFails?)) || (r.stopping > 0 && e.StopResumes?)
    ensures Ended(Step(r, e))
  {
    StepKeeps(r, e);
  }

  /** cancel, stop and setWaitingInput never attempt a move the table forbids, on either side of their awaits. */
  lemma ControlNeverThrows(who: Identity, events: seq<Event>, e: Event)
    requires e.CancelBegins? || e.CancelResumes? || e.StopBegins? || e.StopResumes? || e.SetWaiting?
    ensures !StepX(Run(Launched(who), events), e).1
  {
    LaunchedInv(who);
    RunKeeps(Launched(who), events);
    StepKeeps(Run(Launched(who), events), e);
  }

  /** CANCELLED, reported while nobody asked for it. */
  predicate Unrequested(r: Rec, c: Completion) { c.state == Q.Cancelled && r.life.state != CANCEL_REQUESTED }

  /** A settlement is recorded as it was reported if and only if it is no unrequested CANCELLED; that one is FAILED. */
  lemma UnrequestedCancelFails(r: Rec, c: Completion, started: int, env: Env, retry: Env)
    requires Inv(r) && r.launch == Awaiting && !Ended(r)
    ensures var s := Step(r, LaunchSettles(c, started, env, retry));
            && (s.life.state == StateOf(Normalize(r.life.state, c.state)) <==> !Unrequested(r, c))
            && (Unrequested(r, c) ==> s.life.state == FAILED)
  {
    var running := Resumed(r.(launch := Finished), started);
    assert running.life.state in {RUNNING, WAITING_INPUT, CANCEL_REQUESTED};
    assert Legal(running.life.state, StateOf(Normalize(running.life.state, c.state))) <==> !Unrequested(r, c);
  }

  /** A launch whose adapter resolves with CANCELLED right after it started. */
  lemma CancelledOnItsOwn(who: Identity, c: Completion, started: int, env: Env, retry: Env)
    requires c.state == Q.Cancelled
    ensures Run(Launched(who), [LaunchStarts(env), LaunchSettles(c, started, env, retry)]).life.state == FAILED
  {
    var r := Step(Launched(who), LaunchStarts(env));
    var events := [LaunchStarts(env), LaunchSettles(c, started, env, retry)];
    LaunchedInv(who);
    StepKeeps(Launched(who), LaunchStarts(env));
    UnrequestedCancelFails(r, c, started, env, retry);
    assert events[1..] == [events[1]] && Run(r, events[1..]) == Step(r, events[1]);
  }

  /** A launch that only ever waits for input succeeds without a start time. */
  lemma SucceedsUnstarted(who: Identity, c: Completion, now: int, env: Env)
    requires c.state == Q.Succeeded
    ensures var r := Run(Launched(who), [LaunchStarts(env), AdapterMoves(true, NoRuntime, now),
                                         LaunchSettles(c, now, env, env)]);
            r.life.state == SUCCEEDED && r.out.result.Some? && r.out.result.value.startedAt.None?
  {
    var events := [LaunchStarts(env), AdapterMoves(true, NoRuntime, now), LaunchSettles(c, now, env, env)];
    var r := Step(Step(Launched(who), events[0]), events[1]);
    assert events[1..][1..] == [events[2]] && [events[2]][1..] == [];
    assert r.life.state == WAITING_INPUT && r.life.startedAt.None? && r.launch == Awaiting;
    assert Run(r, [events[2]]) == Step(r, events[2]);
  }
}
