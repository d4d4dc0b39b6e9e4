/** What every step does to a lifecycle record, spelled out state by state and field by field. */
module LifecycleEffects {
  import opened Basics
  import opened JsText
  import opened LifecycleContract
  import opened LifecycleSteps
  import opened LifecycleSafety
  import Q = CompletionStore

  // --- the states ---

  /** The state an adapter's report leads to when nobody asked for a cancellation, and when somebody did. */
  function Unasked(t: Q.TerminalState): State {
    match t
    case Succeeded => SUCCEEDED
    case Failed => FAILED
    case Interrupted => INTERRUPTED
    case Cancelled => FAILED
  }

  function Asked(t: Q.TerminalState): State {
    match t
    case Succeeded => SUCCEEDED
    case Failed => FAILED
    case Interrupted => CANCELLED
    case Cancelled => CANCELLED
  }

  /** The adapter or the user turns to input or away from it. */
  function Turns(from: State, waiting: bool): seq<State> {
    if waiting then (if from == WAITING_INPUT then [] else [WAITING_INPUT])
    else if from == RUNNING then [] else [RUNNING]
  }

  /** The states the record enters, one after the other. */
  function Path(r: Rec, e: Event): seq<State> {
    var st := r.life.state;
    var live := {STARTING, RUNNING, WAITING_INPUT};
    match e
    case LaunchStarts(_) =>
      if r.launch != Scheduled then []
      else if st == PENDING then [STARTING]
      else if st == CANCEL_REQUESTED then [CANCELLED]
      else []
    case AdapterMoves(waiting, report, _) =>
      if r.launch == Scheduled || report.Malformed? || st !in live then [] else Turns(st, waiting)
    case AdapterUpdates(_) => []
    case LaunchSettles(c, _, _, _) =>
      if r.launch != Awaiting then []
      else if st == STARTING then [RUNNING, Unasked(c.state)]
      else if st == RUNNING || st == WAITING_INPUT then [Unasked(c.state)]
      else if st == CANCEL_REQUESTED then [Asked(c.state)]
      else []
    case LaunchFails(_, _) => if r.launch == Awaiting && (st in live || st == CANCEL_REQUESTED) then [FAILED] else []
    case CancelBegins(_) => if st == PENDING then [CANCEL_REQUESTED] else []
    case CancelResumes(accepted) => if r.cancelling > 0 && accepted && st in live then [CANCEL_REQUESTED] else []
    case StopBegins => if st == PENDING || st in live then [CANCEL_REQUESTED] else []
    case StopResumes(_) => if r.stopping > 0 && st == CANCEL_REQUESTED then [CANCELLED] else []
    case SetWaiting(waiting, _) => if st == RUNNING || st == WAITING_INPUT then Turns(st, waiting) else []
  }

  /** Only adapter callbacks throw: on a malformed runtime, or when they want to go on after a cancellation. */
  predicate Throws(r: Rec, e: Event) {
    && (e.AdapterMoves? || e.AdapterUpdates?) && r.launch != Scheduled && !Ended(r)
    && (e.report.Malformed? || (e.AdapterMoves? && r.life.state == CANCEL_REQUESTED))
  }

  /** When RUNNING is entered for the first time, the clock is read. */
  function Clock(e: Event): int {
    match e
    case AdapterMoves(_, _, now) => now
    case LaunchSettles(_, started, _, _) => started
    case SetWaiting(_, now) => now
    case _ => 0
  }

  function StartedAt(r: Rec, e: Event): Option<int> {
    if RUNNING in Path(r, e) && r.life.startedAt.None? then Some(Clock(e)) else r.life.startedAt
  }

  /** The step takes the record through its path, dates the first RUNNING, and throws where it should. */
  ghost predicate Follows(r: Rec, e: Event) {
    var (s, threw) := StepX(r, e);
    && s.life.history == r.life.history + Path(r, e) && s.life.startedAt == StartedAt(r, e)
    && s.life.state == (if Path(r, e) == [] then r.life.state else Path(r, e)[|Path(r, e)| - 1])
    && (threw <==> Throws(r, e))
  }

  lemma LaunchFollows(r: Rec, e: Event)
    requires Inv(r) && (e.LaunchStarts? || e.LaunchFails?)
    ensures Follows(r, e)
  {}

  lemma MoveFollows(r: Rec, e: Event)
    requires Inv(r) && e.AdapterMoves?
    ensures Follows(r, e)
  {
    var to := Inputs(e.waiting);
    if r.launch != Scheduled && !Ended(r) && !e.report.Malformed? {
      assert r.life.state != to ==> (Legal(r.life.state, to) <==> r.life.state != CANCEL_REQUESTED);
    }
  }

  lemma CancelFollows(r: Rec, e: Event)
    requires Inv(r) && (e.CancelBegins? || e.CancelResumes?)
    ensures Follows(r, e)
  {}

  lemma StopFollows(r: Rec, e: Event)
    requires Inv(r) && (e.StopBegins? || e.StopResumes?)
    ensures Follows(r, e)
  {}

  lemma CompleteLife(r: Rec, c: Completion, env: Env)
    ensures var (s, threw) := Complete(r, c, env); var to := StateOf(c.state);
            && threw == !Legal(r.life.state, to)
            && s.life == if threw then r.life else Life(to, r.life.startedAt, r.life.history + [to])
  {}

  /** A settlement that finds the record running, waiting or cancelled closes it at once. */
  lemma SettledLife(r: Rec, c: Completion, started: int, env: Env, retry: Env)
    requires r.life.state in {RUNNING, WAITING_INPUT, CANCEL_REQUESTED}
    ensures var last := if r.life.state == CANCEL_REQUESTED then Asked(c.state) else Unasked(c.state);
            Settle(r, c, started, env, retry).life == Life(last, r.life.startedAt, r.life.history + [last])
  {
    var c' := Reported(r, c, started);
    var done := Complete(r, c', env).0;
    CompleteLife(r, c', env);
    CompleteLife(done, Fallback(done, c'), retry);
  }

  lemma SettleFollows(r: Rec, e: Event)
    requires Inv(r) && e.LaunchSettles?
    ensures Follows(r, e)
  {
    if r.launch == Awaiting && !Ended(r) {
      var here := r.(launch := Finished);
      var running := Resumed(here, e.started);
      assert Settle(here, e.completion, e.started, e.env, e.retry)
          == Settle(running, e.completion, e.started, e.env, e.retry);
      SettledLife(running, e.completion, e.started, e.env, e.retry);
      var h, last := r.life.history, Unasked(e.completion.state);
      assert h + [RUNNING] + [last] == h + [RUNNING, last];
    }
  }

  /**
   * Every step of every reachable record takes it through exactly the states of `Path`, dates the first RUNNING, and
   * throws exactly where `Throws` says.
   */
  lemma StepFollowsPath(r: Rec, e: Event)
    requires Inv(r)
    ensures Follows(r, e)
  {
    match e
    case LaunchStarts(_) => LaunchFollows(r, e);
    case LaunchFails(_, _) => LaunchFollows(r, e);
    case AdapterMoves(_, _, _) => MoveFollows(r, e);
    case AdapterUpdates(_) =>
    case LaunchSettles(_, _, _, _) => SettleFollows(r, e);
    case CancelBegins(_) => CancelFollows(r, e);
    case CancelResumes(_) => CancelFollows(r, e);
    case StopBegins => StopFollows(r, e);
    case StopResumes(_) => StopFollows(r, e);
    case SetWaiting(_, _) =>
  }

  // --- calls in flight and the session ---

  /** Where runLaunch stands after the step. */
  function LaunchAfter(r: Rec, e: Event): Launch {
    if e.LaunchStarts? && r.launch == Scheduled then (if r.life.state == PENDING then Awaiting else Finished)
    else if (e.LaunchSettles? || e.LaunchFails?) && r.launch == Awaiting then Finished
    else r.launch
  }

  /** The cancel and stop calls that are suspended after the step. */
  function CancellingAfter(r: Rec, e: Event): nat {
    if e.CancelBegins? && e.adapterCancels && r.life.state != PENDING && !Ended(r) then r.cancelling + 1
    else if e.CancelResumes? && r.cancelling > 0 then r.cancelling - 1
    else r.cancelling
  }

  function StoppingAfter(r: Rec, e: Event): nat {
    if e.StopBegins? && !Ended(r) then r.stopping + 1
    else if e.StopResumes? && r.stopping > 0 then r.stopping - 1
    else r.stopping
  }

  function SessionAfter(r: Rec, e: Event): Option<Text> {
    if (e.AdapterMoves? || e.AdapterUpdates?) && r.launch != Scheduled && !Ended(r) && e.report.Runtime?
    then e.report.session else r.session
  }

  lemma CallsInFlight(r: Rec, e: Event)
    requires Inv(r)
    ensures var s := Step(r, e);
            && s.launch == LaunchAfter(r, e) && s.session == SessionAfter(r, e)
            && s.cancelling == CancellingAfter(r, e) && s.stopping == StoppingAfter(r, e)
  {
    if e.LaunchSettles? && r.launch == Awaiting { SettleLeaves(r.(launch := Finished), e); }
    else if e.CancelBegins? || e.CancelResumes? || e.StopBegins? || e.StopResumes? { ControlCounts(r, e); }
  }

  lemma CompleteLeaves(r: Rec, c: Completion, env: Env)
    ensures var s := Complete(r, c, env).0; s == r.(life := s.life, out := s.out)
  {}

  lemma SettleLeaves(r: Rec, e: Event)
    requires e.LaunchSettles?
    ensures var s := Settle(r, e.completion, e.started, e.env, e.retry); s == r.(life := s.life, out := s.out)
  {
    var running, c := Resumed(r, e.started), Reported(r, e.completion, e.started);
    var done := Complete(running, c, e.env).0;
    CompleteLeaves(running, c, e.env);
    CompleteLeaves(done, Fallback(done, c), e.retry);
  }

  lemma ControlCounts(r: Rec, e: Event)
    requires Inv(r) && (e.CancelBegins? || e.CancelResumes? || e.StopBegins? || e.StopResumes?)
    ensures var s := Step(r, e);
            && s == r.(life := s.life, out := s.out, cancelling := s.cancelling, stopping := s.stopping)
            && s.cancelling == CancellingAfter(r, e) && s.stopping == StoppingAfter(r, e)
  {
    if e.StopResumes? && r.stopping > 0 { CompleteLeaves(r.(stopping := r.stopping - 1), Stopped(), e.env); }
  }

  // --- the result ---

  /** What a closing step records: the completion, and the clock, digest and queue it finds. */
  function Closing(r: Rec, e: Event): Option<(Completion, Env)> {
    if Ended(r) || Path(r, e) == [] then None
    else match e
      case LaunchStarts(env) =>
        if r.life.state == CANCEL_REQUESTED
        then Some((Completion(Q.Cancelled, Some(Ascii("Cancelled before launch")), None, None, None), env)) else None
      case LaunchSettles(c, _, env, retry) =>
        if r.life.state == CANCEL_REQUESTED
        then Some((if c.state == Q.Interrupted then c.(state := Q.Cancelled) else c, env))
        else if c.state != Q.Cancelled then Some((c, env))
        else
          var why := "Illegal lifecycle transition: "
                   + (if r.life.state == WAITING_INPUT then "WAITING_INPUT" else "RUNNING") + " -> CANCELLED";
          Some((Completion(Q.Failed, None, Some(Ascii(why)), None, None), retry))
      case LaunchFails(message, env) => Some((Completion(Q.Failed, None, Some(message), None, None), env))
      case StopResumes(env) =>
        Some((Completion(Q.Cancelled, Some(Ascii("Stopped by Maestro")), None, None, None), env))
      case _ => None
  }

  /** The result of the record when it closes as `c`, and the offer made for it. */
  function Recorded(r: Rec, startedAt: Option<int>, c: Completion, env: Env): Out {
    var hash := if c.hash.Some? then c.hash.value else env.digest;
    var offers := (r.who.parentInstance.Some? || r.who.parentSession.Some?) && c.handoff.None?;
    var handoff :=
      if c.handoff.Some? then c.handoff.value
      else if !offers then NotRequired
      else if env.hasQueue && env.accepts then Queued
      else HandoffFailed;
    var summary := if c.summary.Some? then c.summary else c.errorMessage;
    var input := Q.Input(r.who.parentInstance, r.who.parentSession, r.who.instanceId, r.session, c.state, summary, hash,
                         Some(env.now));
    Out(Some(env.now), Some(Outcome(c.state, hash, startedAt, env.now, handoff)),
        if offers && env.hasQueue then [input] else [], offers && env.hasQueue && env.accepts, 1)
  }

  /** Completing a record that is still open, or that a first attempt has left with a result nobody saw. */
  lemma CompletesAs(r: Rec, open: Rec, c: Completion, env: Env)
    requires r.who == open.who && r.session == open.session && Legal(open.life.state, StateOf(c.state))
    requires open.out.offers == [] && !open.out.accepted && open.out.resolved == 0 && !StateOf(c.state).RUNNING?
    ensures Complete(open, c, env).0.out == Recorded(r, open.life.startedAt, c, env)
  {}

  lemma IllegalText(from: State)
    requires from == RUNNING || from == WAITING_INPUT
    ensures Illegal(from, CANCELLED)
         == Ascii("Illegal lifecycle transition: " + (if from == WAITING_INPUT then "WAITING_INPUT" else "RUNNING")
                  + " -> CANCELLED")
  {
    assert "Illegal lifecycle transition: " + Name(from) + " -> " + Name(CANCELLED)
        == "Illegal lifecycle transition: " + Name(from) + " -> CANCELLED";
  }

  lemma ClosesSettled(r: Rec, e: Event)
    requires Inv(r) && e.LaunchSettles? && r.launch == Awaiting && !Ended(r)
    ensures Closing(r, e).Some?
    ensures Step(r, e).out == Recorded(r, StartedAt(r, e), Closing(r, e).value.0, Closing(r, e).value.1)
  {
    var here := r.(launch := Finished);
    var running, c := Resumed(here, e.started), Reported(here, e.completion, e.started);
    assert running.life.startedAt == StartedAt(r, e);
    assert running.life.state in {RUNNING, WAITING_INPUT, CANCEL_REQUESTED};
    if Legal(running.life.state, StateOf(c.state)) {
      CompletesAs(r, running, c, e.env);
    } else {
      var done := Complete(running, c, e.env).0;
      IllegalText(running.life.state);
      CompletesAs(r, done, Fallback(done, c), e.retry);
    }
  }

  lemma ClosesOtherwise(r: Rec, e: Event)
    requires Inv(r) && (e.LaunchStarts? || e.LaunchFails? || e.StopResumes?) && Closing(r, e).Some?
    ensures Step(r, e).out == Recorded(r, StartedAt(r, e), Closing(r, e).value.0, Closing(r, e).value.1)
  {
    var (c, env) := Closing(r, e).value;
    var here := if e.StopResumes? then r.(stopping := StoppingAfter(r, e)) else r.(launch := Finished);
    assert Step(r, e) == Complete(here, c, env).0;
    CompletesAs(r, here, c, env);
  }

  lemma StaysOpen(r: Rec, e: Event)
    requires Inv(r) && Closing(r, e).None?
    ensures Step(r, e).out == r.out
  {}

  /** A record closes exactly by the steps of `Closing`, with exactly that result and offer; no other touches it. */
  lemma ClosesAsRecorded(r: Rec, e: Event)
    requires Inv(r)
    ensures var s := Step(r, e);
            && s.out == (if Closing(r, e).None? then r.out
                         else Recorded(r, StartedAt(r, e), Closing(r, e).value.0, Closing(r, e).value.1))
            && (Closing(r, e).Some? <==> !Ended(r) && Ended(s))
  {
    StepFollowsPath(r, e);
    if Closing(r, e).None? { StaysOpen(r, e); }
    else if e.LaunchSettles? { ClosesSettled(r, e); }
    else { ClosesOtherwise(r, e); }
  }

  // --- what a caller of cancel and stop can rely on ---

  lemma Reached(who: Identity, events: seq<Event>)
    ensures Inv(Run(Launched(who), events))
  {
    LaunchedInv(who);
    RunKeeps(Launched(who), events);
  }

  /** The second half of cancel requests the cancellation if and only if it was accepted and the record still lives. */
  lemma CancelTakesEffect(who: Identity, events: seq<Event>, accepted: bool)
    ensures var r := Run(Launched(who), events); var s := Step(r, CancelResumes(accepted));
            r.cancelling > 0 ==>
            && (s.life.state == CANCEL_REQUESTED <==> r.life.state == CANCEL_REQUESTED || (accepted && !Ended(r)))
            && (s.life.state != CANCEL_REQUESTED ==> s.life == r.life)
  {
    Reached(who, events);
    StepFollowsPath(Run(Launched(who), events), CancelResumes(accepted));
  }

  /** A stop always requests the cancellation of a record that has not ended. */
  lemma StopTakesEffect(who: Identity, events: seq<Event>)
    ensures var r := Run(Launched(who), events); var s := Step(r, StopBegins);
            !Ended(r) ==> s.life.state == CANCEL_REQUESTED && s.stopping == r.stopping + 1
  {
    Reached(who, events);
    StepFollowsPath(Run(Launched(who), events), StopBegins);
  }

  /** Once requested, a cancellation is never taken back: the record is in that state until it ends. */
  lemma {:induction false} RequestStays(r: Rec, events: seq<Event>)
    requires Inv(r) && r.life.state == CANCEL_REQUESTED
    ensures var s := Run(r, events); s.life.state == CANCEL_REQUESTED || Ended(s)
    decreases |events|
  {
    if events != [] {
      var s := Step(r, events[0]);
      StepFollowsPath(r, events[0]);
      StepKeeps(r, events[0]);
      if Ended(s) { TerminalIsAbsorbing(s, events[1..]); } else { RequestStays(s, events[1..]); }
    }
  }

  /**
   * A session that is interrupted after its cancellation was requested counts as cancelled, whatever happened in
   * between, unless the record had ended by then.
   */
  lemma InterruptedAfterRequest(r: Rec, events: seq<Event>, c: Completion, started: int, env: Env, retry: Env)
    requires Inv(r) && r.life.state == CANCEL_REQUESTED && c.state == Q.Interrupted
    ensures var s := Run(r, events);
            !Ended(s) && s.launch == Awaiting ==>
              Step(s, LaunchSettles(c, started, env, retry)).life.state == CANCELLED
  {
    RequestStays(r, events);
    RunKeeps(r, events);
    StepFollowsPath(Run(r, events), LaunchSettles(c, started, env, retry));
  }
}
