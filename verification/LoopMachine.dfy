/**
 * The agent loop as a machine over turns: what a run does, given every answer of the provider, hooks, tools and
 * users.
 */
module LoopMachine {
  import opened Basics
  import opened AgentEvents
  import opened AssistantStream
  import opened ToolBatch
  import opened ToolExecutors
  import opened LateUpdates

  /** Where a message of the transcript came from. */
  datatype Source = Prompt | Steering | FollowUp | Loop

  datatype Item = Item(source: Source, message: Message)

  function Messages(items: seq<Item>): (r: seq<Message>)
    ensures |r| == |items| && forall i :: 0 <= i < |items| ==> r[i] == items[i].message
  {
    seq(|items|, i requires 0 <= i < |items| => items[i].message)
  }

  function Tag(source: Source, ms: seq<Message>): (r: seq<Item>)
    ensures |r| == |ms| && Messages(r) == ms && forall i :: 0 <= i < |ms| ==> r[i].source == source
  {
    seq(|ms|, i requires 0 <= i < |ms| => Item(source, ms[i]))
  }

  /**
   * The n-th answers of the world around the loop. Counting starts at 0 for provider calls and the hooks after them,
   * and for polls of the queues: `steered` and `followedUp` are the messages queued since the previous poll.
   * `handsBack` is the context prepareNextTurn may hand back, `noise` the late onUpdate calls of tools that have
   * ended, `exhausted` and `failure` the messages that report a used-up budget and a run that threw.
   */
  datatype World = World(
    respond: nat -> Response,
    serial: bool,
    serialTool: nat -> bool,
    tools: nat -> Oracle,
    noise: Noise,
    handsBack: nat -> Option<seq<Message>>,
    stops: nat -> bool,
    steered: nat -> seq<Message>,
    followedUp: nat -> seq<Message>,
    steerAll: nat -> bool,
    followAll: nat -> bool,
    exhausted: Assistant,
    failure: Assistant)

  // --- the queues ---

  /** Both queues with all that was ever put into them; `skip` is skipInitialSteeringPoll. */
  datatype Queues = Queues(steering: seq<Message>, followUps: seq<Message>, steered: seq<Message>,
                           followed: seq<Message>, polls: nat, skip: bool)

  /** PendingMessageQueue.drain: everything, or the first message. */
  function Drained(all: bool, queue: seq<Message>): seq<Message> {
    if all || queue == [] then queue else queue[..1]
  }

  function Rest(all: bool, queue: seq<Message>): seq<Message> {
    if all || queue == [] then [] else queue[1..]
  }

  lemma DrainSplits(all: bool, queue: seq<Message>)
    ensures Drained(all, queue) + Rest(all, queue) == queue
  {}

  /** Messages queued before the next poll. */
  function Arrive(w: World, q: Queues): Queues {
    q.(steering := q.steering + w.steered(q.polls), followUps := q.followUps + w.followedUp(q.polls),
       steered := q.steered + w.steered(q.polls), followed := q.followed + w.followedUp(q.polls), polls := q.polls + 1)
  }

  function PollSteering(w: World, q: Queues): (seq<Message>, Queues) {
    var r := Arrive(w, q);
    if q.skip then ([], r.(skip := false))
    else (Drained(w.steerAll(q.polls), r.steering), r.(steering := Rest(w.steerAll(q.polls), r.steering)))
  }

  function PollFollowUps(w: World, q: Queues): (seq<Message>, Queues) {
    var r := Arrive(w, q);
    (Drained(w.followAll(q.polls), r.followUps), r.(followUps := Rest(w.followAll(q.polls), r.followUps)))
  }

  // --- the transcript ---

  /**
   * The loop's context, the messages it has added (newMessages) and the events it has emitted. `root` is the context
   * the run started from or prepareNextTurn last replaced it with, when `from` messages had been added.
   */
  datatype Transcript = Transcript(context: seq<Message>, added: seq<Item>, trace: seq<Event>, root: seq<Message>,
                                   from: nat)

  function Emit(t: Transcript, events: seq<Event>): Transcript { t.(trace := t.trace + events) }

  function Add(t: Transcript, items: seq<Item>): Transcript {
    t.(context := t.context + Messages(items), added := t.added + items)
  }

  /** Queued messages enter the context, each in its own bracket. */
  function Inject(t: Transcript, items: seq<Item>): Transcript { Emit(Add(t, items), Pairs(Messages(items))) }

  /** A streamed response: the context is patched while streaming, newMessages gets the final message. */
  function Receive(t: Transcript, r: Response): Transcript {
    var s := Stream(t.context, r.stream, r.final, false);
    t.(context := s.context, added := t.added + [Item(Loop, Reply(r.final))], trace := t.trace + s.trace)
  }

  function Close(t: Transcript, a: Assistant, results: seq<Message>): Transcript {
    Emit(t, [TurnEnd(Reply(a), results)])
  }

  /** prepareNextTurn: the run goes on with the context it hands back, if it does. */
  function Prepare(t: Transcript, context: Option<seq<Message>>): Transcript {
    if context.None? then t else t.(context := context.value, root := context.value, from := |t.added|)
  }

  function Conclude(t: Transcript): Transcript { Emit(t, [AgentEnd(Messages(t.added))]) }

  // --- the turns ---

  /**
   * `ends` records the transcript right after each turn_end, `strays` the tools that have ended; `calls` counts
   * provider calls, `turns` the turns begun.
   */
  datatype Run = Run(t: Transcript, ends: seq<Transcript>, strays: seq<Stray>, queues: Queues, pending: seq<Item>,
                     calls: nat, turns: nat, first: bool, done: bool)

  /** What the Agent hears of a run: its events, with the late calls of ended tools in between and after. */
  function Heard(w: World, s: Run): seq<Event> { Deliver(s.t.trace, s.strays, w.noise, 0) }

  function Begin(s: Run): Run {
    var t := if s.first then s.t else Emit(s.t, [TurnStart]);
    s.(t := Inject(t, s.pending), pending := [], first := false, turns := s.turns + 1)
  }

  function EndTurn(s: Run, a: Assistant, results: seq<Message>): Run {
    var t := Close(s.t, a, results);
    s.(t := t, ends := s.ends + [t])
  }

  function EndRun(s: Run): Run { s.(t := Conclude(s.t), done := true) }

  /** The budget is used up: an error message instead of a provider call ends the run. */
  function Exhaust(w: World, s: Run): Run {
    EndRun(EndTurn(s.(t := Inject(s.t, [Item(Loop, Reply(w.exhausted))])), w.exhausted, []))
  }

  predicate Failed(a: Assistant) { a.stopReason == Error || a.stopReason == Aborted }

  /** The batch the calls of a message give rise to; without calls there is none. */
  function BatchOf(w: World, n: nat, a: Assistant): Batch {
    if a.calls == [] then Batch([], true, SILENCE)
    else if a.stopReason == Length then Truncated(a.calls)
    else if OneAtATime(a.calls, w.serial, w.serialTool) then Sequential(a.calls, w.tools(n))
    else Parallel(a.calls, w.tools(n))
  }

  function RunTools(s: Run, b: Batch): Run {
    s.(t := Add(Emit(s.t, b.piece.trace), Tag(Loop, b.messages)),
       strays := s.strays + Shift(b.piece.strays, |s.t.trace|))
  }

  function PrepareNext(w: World, n: nat, s: Run): Run { s.(t := Prepare(s.t, w.handsBack(n))) }

  function Steer(w: World, s: Run): Run {
    var (ms, q) := PollSteering(w, s.queues);
    s.(pending := Tag(Steering, ms), queues := q)
  }

  /** What the n-th reply leads to: its tools and the checks after the turn; the flag is hasMoreToolCalls. */
  function React(w: World, n: nat, s: Run, a: Assistant): (Run, bool) {
    if Failed(a) then (EndRun(EndTurn(s, a, [])), false)
    else
      var batch := BatchOf(w, n, a);
      var ended := PrepareNext(w, n, EndTurn(RunTools(s, batch), a, batch.messages));
      if w.stops(n) then (EndRun(ended), false) else (Steer(w, ended), !batch.terminate)
  }

  function Paid(s: Run): Run { s.(calls := s.calls + 1) }

  /** The n-th reply is streamed into the transcript. */
  function Received(w: World, n: nat, s: Run): Run { s.(t := Receive(s.t, w.respond(n))) }

  /** A provider call. */
  function Replied(w: World, s: Run): Run { Received(w, s.calls, Paid(s)) }

  function Answer(w: World, s: Run): (Run, bool) { React(w, s.calls, Replied(w, s), w.respond(s.calls).final) }

  /** One pass of the inner loop. */
  function Turn(w: World, max: nat, s: Run): (Run, bool) {
    var b := Begin(s);
    if b.calls >= max then (Exhaust(w, b), false) else Answer(w, b)
  }

  /** The agent would stop: follow-ups start another round, otherwise the run ends. */
  function WouldStop(w: World, s: Run): Run {
    var (ms, q) := PollFollowUps(w, s.queues);
    if ms == [] then EndRun(s.(queues := q))
    else s.(t := Emit(s.t, [FollowUpStart]), pending := Tag(FollowUp, ms), queues := q)
  }

  /** A pass of the inner loop and, where it ends, the outer loop's check. */
  function Round(w: World, max: nat, s: Run): Run {
    var (r, more) := Turn(w, max, s);
    if r.done || more || r.pending != [] then r else WouldStop(w, r)
  }

  /** The rounds still possible: one per provider call left, and one to report that none is left. */
  function Measure(max: nat, s: Run): nat {
    if s.done then 0 else if s.calls < max then max - s.calls + 1 else 1
  }

  /** All rounds; the remaining budget is the measure. */
  function Play(w: World, max: nat, s: Run): Run
    decreases Measure(max, s)
  {
    if s.done then s else Play(w, max, Round(w, max, s))
  }

  /** What runAgentLoop and runAgentLoopContinue set up before runLoop; a continuation has no prompts. */
  function Opening(context: seq<Message>, prompts: seq<Item>, q: Queues): Run {
    var t := Transcript(context, [], [AgentStart, TurnStart], context, 0);
    Run(Inject(t, prompts), [], [], q, [], 0, 0, true, false)
  }

  /** The first poll for steering messages. */
  function Launch(w: World, context: seq<Message>, prompts: seq<Item>, q: Queues): Run {
    Steer(w, Opening(context, prompts, q))
  }

  function RunLoop(w: World, max: nat, context: seq<Message>, prompts: seq<Item>, q: Queues): Run {
    Play(w, max, Launch(w, context, prompts, q))
  }

  /** handleRunFailure: the Agent closes a run that threw with events of its own. */
  function FailureEvents(f: Assistant): seq<Event> {
    [MessageStart(Reply(f)), MessageEnd(Reply(f)), TurnEnd(Reply(f), []), AgentEnd([Reply(f)])]
  }

  function Fail(s: Run, f: Assistant): Run {
    s.(t := Emit(Add(s.t, [Item(Loop, Reply(f))]), FailureEvents(f)), done := true)
  }

  /** A run as the Agent starts it: with maxIterations below 1 the budget throws once the run is opened. */
  function Attempt(w: World, max: nat, context: seq<Message>, prompts: seq<Item>, q: Queues): Run {
    if max < 1 then Fail(Opening(context, prompts, q), w.failure) else RunLoop(w, max, context, prompts, q)
  }
}
