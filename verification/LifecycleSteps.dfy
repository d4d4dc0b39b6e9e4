/**
 * One lifecycle record as a machine over the steps between await points: the launch microtask, the adapter's
 * callbacks and settlement, cancel and stop with their suspended halves, and setWaitingInput.
 */
module LifecycleSteps {
  import opened Basics
  import opened JsText
  import opened LifecycleContract
  import Q = CompletionStore

  datatype Handoff = NotRequired | Queued | HandoffFailed

  /** How an adapter reports the end of a run. */
  datatype Completion = Completion(
    state: Q.TerminalState, summary: Option<Text>, errorMessage: Option<Text>, hash: Option<Text>,
    handoff: Option<Handoff>)

  datatype Outcome = Outcome(
    terminal: Q.TerminalState, hash: Text, startedAt: Option<int>, completedAt: int, handoff: Handoff)

  datatype Identity = Identity(
    instanceId: Text, parentInstance: Option<Text>, parentSession: Option<Text>, correlationId: Option<Text>)

  /** Where runLaunch stands: its microtask is queued, it awaits the adapter, or it is done. */
  datatype Launch = Scheduled | Awaiting | Finished

  /** The state, when RUNNING was first entered, and every state so far. */
  datatype Life = Life(state: State, startedAt: Option<int>, history: seq<State>)

  /** What `complete` produces: result, offers made to the completion queue, calls of resolveCompletion. */
  datatype Out = Out(
    completedAt: Option<int>, result: Option<Outcome>, offers: seq<Q.Input>, accepted: bool, resolved: nat)

  datatype Rec = Rec(
    who: Identity, life: Life, out: Out, session: Option<Text>, launch: Launch, cancelling: nat, stopping: nat)

  /** What the environment supplies when a step completes the record. */
  datatype Env = Env(now: int, digest: Text, hasQueue: bool, accepts: bool)

  /** The runtime identity an adapter may report: a malformed one throws, any other replaces the one known before. */
  datatype Report = NoRuntime | Malformed | Runtime(session: Option<Text>)

  datatype Event =
    | LaunchStarts(env: Env)
    | AdapterMoves(waiting: bool, report: Report, now: int)
    | AdapterUpdates(report: Report)
    | LaunchSettles(completion: Completion, started: int, env: Env, retry: Env)
    | LaunchFails(message: Text, env: Env)
    | CancelBegins(adapterCancels: bool)
    | CancelResumes(accepted: bool)
    | StopBegins
    | StopResumes(env: Env)
    | SetWaiting(waiting: bool, now: int)

  function Launched(who: Identity): Rec {
    Rec(who, Life(PENDING, None, [PENDING]), Out(None, None, [], false, 0), None, Scheduled, 0, 0)
  }

  predicate HasParent(who: Identity) {
    who.parentInstance.Some? || who.parentSession.Some?
  }

  predicate Ended(r: Rec) { Terminal(r.life.state) }

  /** `transition`: refused (a throw, nothing changed) when the table forbids it. */
  function Transition(life: Life, to: State, now: int): (Life, bool) {
    if !Legal(life.state, to) then (life, false)
    else (Life(to, if to == RUNNING && life.startedAt.None? then Some(now) else life.startedAt, life.history + [to]),
          true)
  }

  /** A transition made by a step: the record, and whether it threw. */
  function Move(r: Rec, to: State, now: int): (Rec, bool) {
    var (life, ok) := Transition(r.life, to, now);
    (r.(life := life), !ok)
  }

  function QueueInput(who: Identity, session: Option<Text>, c: Completion, hash: Text, completedAt: int): Q.Input {
    Q.Input(who.parentInstance, who.parentSession, who.instanceId, session, c.state,
            if c.summary.Some? then c.summary else c.errorMessage, hash, Some(completedAt))
  }

  function Hash(c: Completion, env: Env): Text { if c.hash.Some? then c.hash.value else env.digest }

  /** What `complete` writes before its transition, which may still throw. */
  function Written(r: Rec, c: Completion, env: Env): Out {
    r.out.(completedAt := Some(env.now),
           result := Some(Outcome(c.state, Hash(c, env), r.life.startedAt, env.now,
                                  if c.handoff.Some? then c.handoff.value else NotRequired)))
  }

  /** What `complete` does after its transition: offer the result to the queue, then resolve the waiters. */
  function HandedOff(out: Out, who: Identity, session: Option<Text>, c: Completion, env: Env): Out
    requires out.result.Some?
  {
    var outcome := out.result.value;
    if !HasParent(who) || c.handoff.Some? then out.(resolved := out.resolved + 1)
    else if !env.hasQueue then
      out.(result := Some(outcome.(handoff := HandoffFailed)), resolved := out.resolved + 1)
    else
      out.(offers := out.offers + [QueueInput(who, session, c, outcome.hash, env.now)], accepted := env.accepts,
           result := Some(outcome.(handoff := if env.accepts then Queued else HandoffFailed)),
           resolved := out.resolved + 1)
  }

  /** `complete`: the record and whether it threw. A throw leaves the result written. */
  function Complete(r: Rec, c: Completion, env: Env): (Rec, bool) {
    var (life, ok) := Transition(r.life, StateOf(c.state), env.now);
    if ok then (r.(life := life, out := HandedOff(Written(r, c, env), r.who, r.session, c, env)), false)
    else (r.(out := Written(r, c, env)), true)
  }

  /** A failure with the message of the error that caused it. */
  function Failure(message: Text): Completion { Completion(Q.Failed, None, Some(message), None, None) }

  function Cancellation(summary: string): Completion { Completion(Q.Cancelled, Some(Ascii(summary)), None, None, None) }

  /** The message of the error `transition` throws. */
  function Illegal(from: State, to: State): Text {
    Ascii("Illegal lifecycle transition: " + Name(from) + " -> " + Name(to))
  }

  /** The completion the catch of runLaunch falls back to when completing as `c` threw. */
  function Fallback(r: Rec, c: Completion): Completion { Failure(Illegal(r.life.state, StateOf(c.state))) }

  function BeforeLaunch(): Completion { Cancellation("Cancelled before launch") }

  function Stopped(): Completion { Cancellation("Stopped by Maestro") }

  function Normalize(current: State, completed: Q.TerminalState): Q.TerminalState {
    if current == CANCEL_REQUESTED && completed == Q.Interrupted then Q.Cancelled else completed
  }

  /** The record when adapter.launch has settled, and the completion as it is normalized then. */
  function Resumed(r: Rec, started: int): Rec { if r.life.state == STARTING then Move(r, RUNNING, started).0 else r }

  function Reported(r: Rec, c: Completion, started: int): Completion {
    c.(state := Normalize(Resumed(r, started).life.state, c.state))
  }

  /** The settlement of adapter.launch: complete as reported, or as FAILED when that throws. */
  function Settle(r: Rec, c: Completion, started: int, env: Env, retry: Env): Rec {
    if Ended(r) then r
    else
      var (done, threw) := Complete(Resumed(r, started), Reported(r, c, started), env);
      if threw then Complete(done, Fallback(done, Reported(r, c, started)), retry).0 else done
  }

  function Inputs(waiting: bool): State { if waiting then WAITING_INPUT else RUNNING }

  /** The launch microtask, up to the await of adapter.launch. */
  function StartLaunch(r: Rec, env: Env): (Rec, bool) {
    if r.launch != Scheduled then (r, false)
    else if Ended(r) then (r.(launch := Finished), false)
    else if r.life.state == CANCEL_REQUESTED then Complete(r.(launch := Finished), BeforeLaunch(), env)
    else Move(r.(launch := Awaiting), STARTING, env.now)
  }

  function WithRuntime(r: Rec, report: Report): Rec {
    if report.Runtime? then r.(session := report.session) else r
  }

  /** control.transition; a malformed runtime identity throws before anything is stored. */
  function AdapterMove(r: Rec, to: State, report: Report, now: int): (Rec, bool) {
    if r.launch == Scheduled || Ended(r) then (r, false)
    else if report.Malformed? then (r, true)
    else if r.life.state == to then (WithRuntime(r, report), false)
    else Move(WithRuntime(r, report), to, now)
  }

  function AdapterUpdate(r: Rec, report: Report): (Rec, bool) {
    if r.launch == Scheduled || Ended(r) then (r, false)
    else if report.Malformed? then (r, true)
    else (WithRuntime(r, report), false)
  }

  function FinishLaunch(r: Rec, c: Completion, started: int, env: Env, retry: Env): Rec {
    if r.launch != Awaiting then r else Settle(r.(launch := Finished), c, started, env, retry)
  }

  function FailLaunch(r: Rec, message: Text, env: Env): (Rec, bool) {
    if r.launch != Awaiting then (r, false)
    else if Ended(r) then (r.(launch := Finished), false)
    else Complete(r.(launch := Finished), Failure(message), env)
  }

  /** cancel up to its await; suspended only when the adapter can cancel. */
  function BeginCancel(r: Rec, adapterCancels: bool): (Rec, bool) {
    if Ended(r) then (r, false)
    else if r.life.state == PENDING then Move(r, CANCEL_REQUESTED, 0)
    else if !adapterCancels then (r, false)
    else (r.(cancelling := r.cancelling + 1), false)
  }

  function ResumeCancel(r: Rec, accepted: bool): (Rec, bool) {
    if r.cancelling == 0 then (r, false)
    else
      var back := r.(cancelling := r.cancelling - 1);
      if accepted && !Ended(r) && r.life.state != CANCEL_REQUESTED then Move(back, CANCEL_REQUESTED, 0)
      else (back, false)
  }

  function BeginStop(r: Rec): (Rec, bool) {
    if Ended(r) then (r, false)
    else if r.life.state == CANCEL_REQUESTED then (r.(stopping := r.stopping + 1), false)
    else
      var (s, threw) := Move(r, CANCEL_REQUESTED, 0);
      if threw then (s, true) else (s.(stopping := s.stopping + 1), false)
  }

  function ResumeStop(r: Rec, env: Env): (Rec, bool) {
    if r.stopping == 0 then (r, false)
    else
      var back := r.(stopping := r.stopping - 1);
      if Ended(r) then (back, false) else Complete(back, Stopped(), env)
  }

  function SetInput(r: Rec, to: State, now: int): (Rec, bool) {
    if Ended(r) || r.life.state in {CANCEL_REQUESTED, PENDING, STARTING} || r.life.state == to then (r, false)
    else Move(r, to, now)
  }

  /** A step and whether it ended in a throw; a half of a call that is not suspended does nothing. */
  function StepX(r: Rec, e: Event): (Rec, bool) {
    match e
    case LaunchStarts(env) => StartLaunch(r, env)
    case AdapterMoves(waiting, report, now) => AdapterMove(r, Inputs(waiting), report, now)
    case AdapterUpdates(report) => AdapterUpdate(r, report)
    case LaunchSettles(c, started, env, retry) => (FinishLaunch(r, c, started, env, retry), false)
    case LaunchFails(message, env) => FailLaunch(r, message, env)
    case CancelBegins(adapterCancels) => BeginCancel(r, adapterCancels)
    case CancelResumes(accepted) => ResumeCancel(r, accepted)
    case StopBegins => BeginStop(r)
    case StopResumes(env) => ResumeStop(r, env)
    case SetWaiting(waiting, now) => SetInput(r, Inputs(waiting), now)
  }

  function Step(r: Rec, e: Event): Rec { StepX(r, e).0 }

  function Run(r: Rec, events: seq<Event>): Rec
    decreases |events|
  {
    if events == [] then r else Run(Step(r, events[0]), events[1..])
  }
}
