/**
 * The service and the completion queue together: lifecycle records complete into a queue that consumers
 * claim, acknowledge and release at any time in between.
 */
module Handoff {
  import opened Basics
  import opened LifecycleSteps
  import L = LifecycleSafety
  import Q = CompletionStore
  import S = CompletionSafety
  import R = CompletionRuns

  /** `tickets` names the stored completion each record was queued as. */
  datatype World = World(recs: seq<Rec>, queue: Q.Queue, tickets: map<nat, nat>)

  const START := World([], Q.Queue([], 0, {}), map[])

  datatype WorldMove =
    | NewRecord(who: Identity)
    | OnRecord(i: nat, e: Event, now: int, now': int)
    | OnQueue(op: Q.Op)

  /** The queue's answer, put where a completing step looks for it. */
  function Answered(e: Event, ok: bool): Event {
    match e
    case LaunchStarts(env) => LaunchStarts(env.(accepts := ok))
    case LaunchSettles(c, started, env, retry) =>
      LaunchSettles(c, started, env.(accepts := ok), retry.(accepts := ok))
    case LaunchFails(message, env) => LaunchFails(message, env.(accepts := ok))
    case StopResumes(env) => StopResumes(env.(accepts := ok))
    case _ => e
  }

  predicate Offers(r: Rec, e: Event) {
    r.out.offers == [] && |Step(r, Answered(e, true)).out.offers| == 1
  }

  function Offer(r: Rec, e: Event): Q.Input
    requires Offers(r, e)
  {
    Step(r, Answered(e, true)).out.offers[0]
  }

  function StepRecord(w: World, i: nat, e: Event, now: int, now': int, c: Q.Config): World
    requires i < |w.recs|
  {
    var r := w.recs[i];
    if !Offers(r, e) then w.(recs := w.recs[i := Step(r, e)])
    else
      var input := Offer(r, e);
      var reply := Q.Enqueue(w.queue.records, w.queue.nextId, input, now, now', c).1;
      World(w.recs[i := Step(r, Answered(e, reply.Ok?))], Q.Step(w.queue, Q.OpEnqueue(input, now, now'), c),
            if reply.Ok? then w.tickets[i := reply.value.id] else w.tickets)
  }

  function StepQueue(w: World, op: Q.Op, c: Q.Config): World { w.(queue := Q.Step(w.queue, op, c)) }

  function StepWorld(w: World, m: WorldMove, c: Q.Config): World {
    match m
    case NewRecord(who) => w.(recs := w.recs + [Launched(who)])
    case OnRecord(i, e, now, now') => if i < |w.recs| then StepRecord(w, i, e, now, now', c) else w
    case OnQueue(op) => StepQueue(w, op, c)
  }

  function RunWorld(w: World, moves: seq<WorldMove>, c: Q.Config): World
    decreases |moves|
  {
    if moves == [] then w else RunWorld(StepWorld(w, moves[0], c), moves[1..], c)
  }

  /** The stored completion is for the record's child, parents and result hash. */
  ghost predicate Speaks(info: Q.Info, r: Rec) {
    && r.out.result.Some? && info.child == r.who.instanceId
    && info.parentInstance == r.who.parentInstance && info.parentSession == r.who.parentSession
    && info.hash == r.out.result.value.hash
  }

  /** And it names the record's terminal state too. */
  ghost predicate SpeaksExactly(info: Q.Info, r: Rec) {
    Speaks(info, r) && info.terminal == r.out.result.value.terminal
  }

  ghost predicate Inv(w: World) {
    && S.Inv(w.queue)
    && forall i :: 0 <= i < |w.recs| ==> L.Inv(w.recs[i]) && (w.recs[i].out.accepted ==> Ticketed(w, i))
  }

  ghost predicate Ticketed(w: World, i: nat) { i in w.tickets && w.tickets[i] < w.queue.nextId }

  // --- one move ---

  /** A deliverable completion survives any queue operation but an accepted acknowledge by its newest claim. */
  lemma QueueKeepsDelivering(q: Q.Queue, op: Q.Op, c: Q.Config, t: nat)
    requires S.Inv(q) && !R.Gone(Q.Get(q, t))
    ensures var q' := Q.Step(q, op, c);
            || R.Acknowledges(q, op, t)
            || (!R.Gone(Q.Get(q', t)) && Q.Get(q', t).value.info == Q.Get(q, t).value.info)
  {
    R.LookupBelow(q, t);
    S.StepEffect(q, op, c, t);
    if R.Gone(Q.Get(Q.Step(q, op, c), t)) { R.GoneByAcknowledge(q, op, c, t); }
  }

  /** Which offer a step makes does not depend on the answer it will get. */
  lemma CompleteOffers(r: Rec, c: Completion, env: Env, ok: bool)
    ensures var a, b := Complete(r, c, env), Complete(r, c, env.(accepts := ok));
            && a.1 == b.1 && a.0.out.offers == b.0.out.offers && a.0.life == b.0.life
            && (a.1 ==> a == b)
            && (b.0.out.accepted == if |b.0.out.offers| > |r.out.offers| then ok else r.out.accepted)
  {}

  lemma SettleOffers(r: Rec, c: Completion, started: int, env: Env, retry: Env, ok: bool)
    requires L.Inv(r.(launch := Awaiting)) && r.launch == Finished
    ensures var a, b := Settle(r, c, started, env, retry),
                        Settle(r, c, started, env.(accepts := ok), retry.(accepts := ok));
            && a.out.offers == b.out.offers
            && (b.out.accepted == if |b.out.offers| > |r.out.offers| then ok else r.out.accepted)
  {
    var running, c' := Resumed(r, started), Reported(r, c, started);
    CompleteOffers(running, c', env, ok);
    var done := Complete(running, c', env).0;
    CompleteOffers(done, Fallback(done, c'), retry, ok);
  }

  lemma StepOffers(r: Rec, e: Event, ok: bool)
    requires L.Inv(r)
    ensures Step(r, e).out.offers == Step(r, Answered(e, ok)).out.offers
    ensures var b := Step(r, Answered(e, ok));
            b.out.accepted == if |b.out.offers| > |r.out.offers| then ok else r.out.accepted
  {
    match e
    case LaunchStarts(env) => CompleteOffers(r.(launch := Finished), BeforeLaunch(), env, ok);
    case LaunchSettles(c, started, env, retry) =>
      if r.launch == Awaiting { SettleOffers(r.(launch := Finished), c, started, env, retry, ok); }
    case LaunchFails(message, env) => CompleteOffers(r.(launch := Finished), Failure(message), env, ok);
    case StopResumes(env) =>
      if r.stopping > 0 { CompleteOffers(r.(stopping := r.stopping - 1), Stopped(), env, ok); }
    case _ =>
  }

  /** A step without an offer leaves "queued" as it was; a queued record's result no longer changes. */
  lemma QuietStep(r: Rec, e: Event)
    requires L.Inv(r) && !Offers(r, e)
    ensures L.Inv(Step(r, e)) && Step(r, e).who == r.who
    ensures Step(r, e).out.accepted == r.out.accepted && (r.out.accepted ==> Step(r, e).out == r.out)
  {
    L.StepKeeps(r, e);
    StepOffers(r, e, true);
    if r.out.offers != [] {
      L.TerminalIsAbsorbing(r, [e]);
      assert Run(r, [e]) == Step(r, e);
    }
  }

  lemma OfferingStep(r: Rec, e: Event, ok: bool)
    requires L.Inv(r) && Offers(r, e)
    ensures var s := Step(r, Answered(e, ok));
            && L.Inv(s) && s.who == r.who && s.out.accepted == ok
            && s.out.result.Some? && L.Carries(Offer(r, e), s.out.result.value, s.who)
  {
    L.StepKeeps(r, Answered(e, ok));
    StepOffers(r, e, ok);
    StepOffers(r, e, true);
  }

  /** The completion the queue already holds for the record's child when the record offers its own. */
  function Known(w: World, i: nat, now: int, c: Q.Config): Option<Q.Rec>
    requires i < |w.recs|
  {
    Q.LookupChild(Q.Cleanup(w.queue.records, now, c), w.recs[i].who.instanceId)
  }

  /**
   * Right after an accepted offer: a completion of the record's own was stored, pending and naming exactly its
   * result, if and only if the queue held none for the child; otherwise the one it held stands for the record.
   */
  lemma AcceptedIsDelivering(w: World, i: nat, e: Event, now: int, now': int, c: Q.Config)
    requires Inv(w) && i < |w.recs| && Offers(w.recs[i], e)
    ensures var w' := StepRecord(w, i, e, now, now', c); var x := Known(w, i, now, c);
            w'.recs[i].out.accepted ==>
            && i in w'.tickets && var t := w'.tickets[i]; var stored := Q.Get(w'.queue, t);
               && stored.Some? && Speaks(stored.value.info, w'.recs[i])
               && (x.None? <==> t == w.queue.nextId)
               && (x.None? ==> stored.value.delivery == Q.Pending && SpeaksExactly(stored.value.info, w'.recs[i]))
               && (x.Some? ==> stored == x && t == x.value.id)
  {
    var r, input := w.recs[i], Offer(w.recs[i], e);
    var reply := Q.Enqueue(w.queue.records, w.queue.nextId, input, now, now', c).1;
    OfferingStep(r, e, reply.Ok?);
    S.EnqueueOf(w.queue.records, w.queue.nextId, input, now, now', c);
  }

  /**
   * The stored terminal state is the record's if and only if no completion with another state was held for the child.
   */
  lemma TerminalStateIff(w: World, i: nat, e: Event, now: int, now': int, c: Q.Config)
    requires Inv(w) && i < |w.recs| && Offers(w.recs[i], e)
    ensures var w' := StepRecord(w, i, e, now, now', c); var x := Known(w, i, now, c);
            w'.recs[i].out.accepted ==>
            && i in w'.tickets && Q.Get(w'.queue, w'.tickets[i]).Some?
            && (SpeaksExactly(Q.Get(w'.queue, w'.tickets[i]).value.info, w'.recs[i])
                <==> x.None? || x.value.info.terminal == Offer(w.recs[i], e).terminal)
  {
    var r, input := w.recs[i], Offer(w.recs[i], e);
    OfferingStep(r, e, Q.Enqueue(w.queue.records, w.queue.nextId, input, now, now', c).1.Ok?);
    AcceptedIsDelivering(w, i, e, now, now', c);
  }

  /** Replacing one record, with a queue that moved on, keeps every other record as it was. */
  lemma OneRecord(w: World, w': World, i: nat)
    requires Inv(w) && i < |w.recs| && |w'.recs| == |w.recs| && w'.recs == w.recs[i := w'.recs[i]]
    requires S.Inv(w'.queue) && w.queue.nextId <= w'.queue.nextId
    requires L.Inv(w'.recs[i]) && (w'.recs[i].out.accepted ==> Ticketed(w', i))
    requires forall j :: j != i && j in w.tickets ==> j in w'.tickets && w'.tickets[j] == w.tickets[j]
    ensures Inv(w')
  {
    forall k | 0 <= k < |w'.recs| ensures L.Inv(w'.recs[k]) && (w'.recs[k].out.accepted ==> Ticketed(w', k)) {
      if k != i { assert w'.recs[k] == w.recs[k]; }
    }
  }

  lemma RecordMoveKeeps(w: World, i: nat, e: Event, now: int, now': int, c: Q.Config)
    requires Inv(w) && i < |w.recs|
    ensures Inv(StepRecord(w, i, e, now, now', c))
  {
    var r, w' := w.recs[i], StepRecord(w, i, e, now, now', c);
    assert L.Inv(r);
    if Offers(r, e) {
      var input := Offer(r, e);
      OfferingStep(r, e, Q.Enqueue(w.queue.records, w.queue.nextId, input, now, now', c).1.Ok?);
      R.StepKeeps(w.queue, Q.OpEnqueue(input, now, now'), c);
      S.EnqueueOf(w.queue.records, w.queue.nextId, input, now, now', c);
    } else {
      QuietStep(r, e);
    }
    OneRecord(w, w', i);
  }

  lemma MoveKeeps(w: World, m: WorldMove, c: Q.Config)
    requires Inv(w)
    ensures Inv(StepWorld(w, m, c))
  {
    match m
    case NewRecord(who) => L.LaunchedInv(who);
    case OnRecord(i, e, now, now') => if i < |w.recs| { RecordMoveKeeps(w, i, e, now, now', c); }
    case OnQueue(op) =>
      R.StepKeeps(w.queue, op, c);
      R.StepGrows(w.queue, op, c);
  }

  lemma {:induction false} RunKeeps(w: World, moves: seq<WorldMove>, c: Q.Config)
    requires Inv(w)
    ensures Inv(RunWorld(w, moves, c))
    decreases |moves|
  {
    if moves != [] {
      MoveKeeps(w, moves[0], c);
      RunKeeps(StepWorld(w, moves[0], c), moves[1..], c);
    }
  }
}
