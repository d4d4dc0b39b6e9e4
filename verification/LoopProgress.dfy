/**
 * How a run goes on: what each turn adds and what follows each turn_end, told from the trace, the recorded turn ends
 * and the answers of the world alone.
 */
module LoopProgress {
  import opened Basics
  import opened AgentEvents
  import opened LoopMachine
  import opened TurnTraces
  import opened ToolEffects
  import opened LoopSafety
  import opened LoopRuns
  import opened QueueConservation

  // --- what should happen ---

  /** The messages queued from the `from`-th poll up to the n-th. */
  function Arrivals(f: nat -> seq<Message>, from: nat, n: nat): seq<Message> {
    if n <= from then [] else Arrivals(f, from, n - 1) + f(n - 1)
  }

  function FollowUpStarts(trace: seq<Event>): nat { Count(trace, (e: Event) => e.FollowUpStart?) }

  /** The start of a run: the prompts and the queues it finds. */
  datatype Start = Start(prompts: seq<Item>, q: Queues)

  /** How often the queues had been polled when the i-th turn ended: first, after each turn before, for follow-ups. */
  function Polls(b: Start, e: Transcript, i: nat): nat { b.q.polls + 1 + i + FollowUpStarts(e.trace) }

  /** The messages of one source that the run has taken so far. */
  function Taken(b: Start, added: seq<Item>, source: Source): seq<Message> {
    if |b.prompts| <= |added| then Select(added[|b.prompts|..], source) else []
  }

  /** Of all messages queued, those that were not taken yet. */
  function Left(all: seq<Message>, taken: seq<Message>): seq<Message> {
    if |taken| <= |all| then all[|taken|..] else []
  }

  /** What a poll hands out in the given mode. */
  function Portion(everything: bool, queue: seq<Message>): seq<Message> {
    if everything || queue == [] then queue else [queue[0]]
  }

  function SteeringDue(w: World, b: Start, e: Transcript, i: nat): seq<Message> {
    var p := Polls(b, e, i);
    Portion(w.steerAll(p), Left(b.q.steering + Arrivals(w.steered, b.q.polls, p + 1), Taken(b, e.added, Steering)))
  }

  function FollowUpsDue(w: World, b: Start, e: Transcript, i: nat): seq<Message> {
    var p := Polls(b, e, i) + 1;
    Portion(w.followAll(p), Left(b.q.followUps + Arrivals(w.followedUp, b.q.polls, p + 1), Taken(b, e.added, FollowUp)))
  }

  /** The results the turn_end carries. */
  function ResultsAt(e: Transcript): seq<Message> {
    if e.trace != [] && e.trace[|e.trace| - 1].TurnEnd? then e.trace[|e.trace| - 1].results else []
  }

  /** What follows a turn: another one, a round of follow-ups, or the end. */
  datatype Next = NextTurn(items: seq<Item>) | NextRound(items: seq<Item>) | NextEnd

  function After(w: World, max: nat, b: Start, e: Transcript, i: nat): Next {
    var reply := w.respond(i).final;
    if i >= max || reply.stopReason == Error || reply.stopReason == Aborted || w.stops(i) then NextEnd
    else if GoesOn(ResultsAt(e)) || SteeringDue(w, b, e, i) != [] then NextTurn(Tag(Steering, SteeringDue(w, b, e, i)))
    else if FollowUpsDue(w, b, e, i) != [] then NextRound(Tag(FollowUp, FollowUpsDue(w, b, e, i)))
    else NextEnd
  }

  /** The steering messages the first turn begins with. */
  function FirstDue(w: World, b: Start): seq<Item> {
    if b.q.skip then []
    else Tag(Steering, Portion(w.steerAll(b.q.polls), b.q.steering + w.steered(b.q.polls)))
  }

  /** The trace goes on after the turn end `e` as it should. */
  ghost predicate Followed(trace: seq<Event>, e: Transcript, next: Next) {
    match next
    case NextTurn(items) => e.trace + [TurnStart] + Pairs(Messages(items)) <= trace
    case NextRound(items) => e.trace + [FollowUpStart, TurnStart] + Pairs(Messages(items)) <= trace
    case NextEnd => trace == e.trace + [AgentEnd(Messages(e.added))]
  }

  /** What the i-th turn adds itself: the reply and the results of its calls, or the report of the used-up budget. */
  function Produced(w: World, max: nat, e: Transcript, i: nat): seq<Item> {
    if i >= max then [Item(Loop, Reply(w.exhausted))]
    else [Item(Loop, Reply(w.respond(i).final))] + Tag(Loop, ResultsAt(e))
  }

  /** The turn_end names the reply and carries the answers of its calls. */
  ghost predicate EndsTurn(w: World, max: nat, e: Transcript, i: nat) {
    && e.trace != [] && e.trace[|e.trace| - 1].TurnEnd?
    && (if i >= max then e.trace[|e.trace| - 1] == TurnEnd(Reply(w.exhausted), [])
        else
          var a := w.respond(i).final;
          && e.trace[|e.trace| - 1].message == Reply(a)
          && ResultsAt(e) == if a.stopReason == Error || a.stopReason == Aborted then [] else BatchOf(w, i, a).messages)
  }

  /** The messages with which the i-th turn began, and all that was there before. */
  function Given(w: World, max: nat, b: Start, ends: seq<Transcript>, i: nat): seq<Item>
    requires i <= |ends|
  {
    if i == 0 then FirstDue(w, b)
    else match After(w, max, b, ends[i - 1], i - 1)
      case NextTurn(items) => items
      case NextRound(items) => items
      case NextEnd => []
  }

  function Earlier(b: Start, ends: seq<Transcript>, i: nat): seq<Item>
    requires i <= |ends|
  {
    if i == 0 then b.prompts else ends[i - 1].added
  }

  /** The i-th turn took what was due to it, and added what it should. */
  ghost predicate Took(w: World, max: nat, b: Start, ends: seq<Transcript>, i: nat)
    requires i < |ends|
  {
    && EndsTurn(w, max, ends[i], i)
    && ends[i].added == Earlier(b, ends, i) + Given(w, max, b, ends, i) + Produced(w, max, ends[i], i)
  }

  // --- the invariant between rounds ---

  /** The queue holds what was queued and not taken. */
  ghost predicate Accounted(w: World, b: Start, added: seq<Item>, q: Queues) {
    && b.prompts <= added && !q.skip && q.polls >= b.q.polls
    && b.q.steering + Arrivals(w.steered, b.q.polls, q.polls) == Taken(b, added, Steering) + q.steering
    && b.q.followUps + Arrivals(w.followedUp, b.q.polls, q.polls) == Taken(b, added, FollowUp) + q.followUps
  }

  /** What the next turn begins with is pending, and the trace stands where it should. */
  ghost predicate Due(w: World, max: nat, b: Start, s: Run) {
    var n := |s.ends|;
    && s.pending == Given(w, max, b, s.ends, n) && s.t.added == Earlier(b, s.ends, n)
    && (s.first <==> n == 0)
    && (n > 0 ==>
          match After(w, max, b, s.ends[n - 1], n - 1)
          case NextTurn(_) => s.t.trace == s.ends[n - 1].trace
          case NextRound(_) => s.t.trace == s.ends[n - 1].trace + [FollowUpStart]
          case NextEnd => false)
  }

  ghost predicate AllTook(w: World, max: nat, b: Start, ends: seq<Transcript>) {
    forall i {:trigger Took(w, max, b, ends, i)} :: 0 <= i < |ends| ==> Took(w, max, b, ends, i)
  }

  /** Every recorded turn before the `n`-th was followed as it should, and was not the last. */
  ghost predicate AllFollowed(w: World, max: nat, b: Start, trace: seq<Event>, ends: seq<Transcript>, n: nat)
    requires n <= |ends|
  {
    forall i {:trigger GoneOn(trace, ends[i], After(w, max, b, ends[i], i))} :: 0 <= i < n ==>
      GoneOn(trace, ends[i], After(w, max, b, ends[i], i))
  }

  ghost predicate GoneOn(trace: seq<Event>, e: Transcript, next: Next) { Followed(trace, e, next) && next != NextEnd }

  ghost predicate Going(w: World, max: nat, b: Start, s: Run) {
    && !s.done && s.calls == |s.ends| <= max
    && Accounted(w, b, s.t.added + s.pending, s.queues)
    && s.queues.polls == b.q.polls + 1 + |s.ends| + FollowUpStarts(s.t.trace)
    && Due(w, max, b, s) && AllTook(w, max, b, s.ends)
    && AllFollowed(w, max, b, s.t.trace, s.ends, if s.ends == [] then 0 else |s.ends| - 1)
  }

  /** The run is over, after its last turn. */
  ghost predicate Over(w: World, max: nat, b: Start, s: Run) {
    && s.done && s.ends != [] && s.calls == (if |s.ends| <= max then |s.ends| else max)
    && AllTook(w, max, b, s.ends) && AllFollowed(w, max, b, s.t.trace, s.ends, |s.ends| - 1)
    && var l := |s.ends| - 1;
       && After(w, max, b, s.ends[l], l) == NextEnd && Followed(s.t.trace, s.ends[l], NextEnd)
       && s.t.added == s.ends[l].added
  }

  // --- queues ---

  lemma PortionIsDrained(everything: bool, queue: seq<Message>)
    ensures Portion(everything, queue) == Drained(everything, queue)
    ensures queue == Portion(everything, queue) + LoopMachine.Rest(everything, queue)
  {
    DrainSplits(everything, queue);
  }

  lemma TakenMore(b: Start, added: seq<Item>, more: seq<Item>, source: Source)
    requires b.prompts <= added
    ensures Taken(b, added + more, source) == Taken(b, added, source) + Select(more, source)
  {
    assert (added + more)[|b.prompts|..] == added[|b.prompts|..] + more;
    SelectAppend(added[|b.prompts|..], more, source);
  }

  lemma TakenTagged(b: Start, added: seq<Item>, tag: Source, ms: seq<Message>, source: Source)
    requires b.prompts <= added
    ensures Taken(b, added + Tag(tag, ms), source) == Taken(b, added, source) + if tag == source then ms else []
  {
    TakenMore(b, added, Tag(tag, ms), source);
    SelectTag(tag, ms, source);
  }

  /** Messages of the loop itself leave the account as it is. */
  lemma LoopAccounted(w: World, b: Start, added: seq<Item>, ms: seq<Message>, q: Queues)
    requires Accounted(w, b, added, q)
    ensures Accounted(w, b, added + Tag(Loop, ms), q)
  {
    TakenTagged(b, added, Loop, ms, Steering);
    TakenTagged(b, added, Loop, ms, FollowUp);
  }

  lemma ArriveAccounted(w: World, b: Start, added: seq<Item>, q: Queues)
    requires Accounted(w, b, added, q)
    ensures Accounted(w, b, added, Arrive(w, q))
    ensures Arrive(w, q).steering
         == Left(b.q.steering + Arrivals(w.steered, b.q.polls, q.polls + 1), Taken(b, added, Steering))
    ensures Arrive(w, q).followUps
         == Left(b.q.followUps + Arrivals(w.followedUp, b.q.polls, q.polls + 1), Taken(b, added, FollowUp))
  {
    var r := Arrive(w, q);
    Assoc(b.q.steering, Arrivals(w.steered, b.q.polls, q.polls), w.steered(q.polls));
    Assoc(b.q.followUps, Arrivals(w.followedUp, b.q.polls, q.polls), w.followedUp(q.polls));
    Assoc(Taken(b, added, Steering), q.steering, w.steered(q.polls));
    Assoc(Taken(b, added, FollowUp), q.followUps, w.followedUp(q.polls));
  }

  lemma TakesSteering(w: World, b: Start, added: seq<Item>, r: Queues, everything: bool)
    requires Accounted(w, b, added, r)
    ensures Accounted(w, b, added + Tag(Steering, Portion(everything, r.steering)),
                      r.(steering := LoopMachine.Rest(everything, r.steering)))
  {
    var due := Portion(everything, r.steering);
    PortionIsDrained(everything, r.steering);
    TakenTagged(b, added, Steering, due, Steering);
    TakenTagged(b, added, Steering, due, FollowUp);
    Assoc(Taken(b, added, Steering), due, LoopMachine.Rest(everything, r.steering));
    assert Taken(b, added, FollowUp) + [] == Taken(b, added, FollowUp);
  }

  lemma TakesFollowUps(w: World, b: Start, added: seq<Item>, r: Queues, everything: bool)
    requires Accounted(w, b, added, r)
    ensures Accounted(w, b, added + Tag(FollowUp, Portion(everything, r.followUps)),
                      r.(followUps := LoopMachine.Rest(everything, r.followUps)))
  {
    var due := Portion(everything, r.followUps);
    PortionIsDrained(everything, r.followUps);
    TakenTagged(b, added, FollowUp, due, Steering);
    TakenTagged(b, added, FollowUp, due, FollowUp);
    Assoc(Taken(b, added, FollowUp), due, LoopMachine.Rest(everything, r.followUps));
    assert Taken(b, added, Steering) + [] == Taken(b, added, Steering);
  }

  lemma SteeringPoll(w: World, b: Start, e: Transcript, i: nat, q: Queues)
    requires Accounted(w, b, e.added, q) && q.polls == Polls(b, e, i)
    ensures PollSteering(w, q).0 == SteeringDue(w, b, e, i) && PollSteering(w, q).1.polls == q.polls + 1
    ensures Accounted(w, b, e.added + Tag(Steering, SteeringDue(w, b, e, i)), PollSteering(w, q).1)
  {
    ArriveAccounted(w, b, e.added, q);
    PortionIsDrained(w.steerAll(q.polls), Arrive(w, q).steering);
    TakesSteering(w, b, e.added, Arrive(w, q), w.steerAll(q.polls));
  }

  lemma FollowUpPoll(w: World, b: Start, e: Transcript, i: nat, q: Queues)
    requires Accounted(w, b, e.added, q) && q.polls == Polls(b, e, i) + 1
    ensures PollFollowUps(w, q).0 == FollowUpsDue(w, b, e, i) && PollFollowUps(w, q).1.polls == q.polls + 1
    ensures Accounted(w, b, e.added + Tag(FollowUp, FollowUpsDue(w, b, e, i)), PollFollowUps(w, q).1)
  {
    ArriveAccounted(w, b, e.added, q);
    PortionIsDrained(w.followAll(q.polls), Arrive(w, q).followUps);
    TakesFollowUps(w, b, e.added, Arrive(w, q), w.followAll(q.polls));
  }

  // --- one turn ---

  lemma NoFollowUp(trace: seq<Event>, more: seq<Event>)
    requires forall i :: 0 <= i < |more| ==> !more[i].FollowUpStart?
    ensures FollowUpStarts(trace + more) == FollowUpStarts(trace)
  {
    CountAppend(trace, more, (e: Event) => e.FollowUpStart?);
    CountNone(more, (e: Event) => e.FollowUpStart?);
  }

  lemma OneFollowUp(trace: seq<Event>)
    ensures FollowUpStarts(trace + [FollowUpStart]) == FollowUpStarts(trace) + 1
  {
    CountAppend(trace, [FollowUpStart], (e: Event) => e.FollowUpStart?);
    assert [FollowUpStart][1..] == [];
  }

  /** Within a turn: it has taken what was due, and its own messages are to come. */
  ghost predicate Running(w: World, max: nat, b: Start, s: Run) {
    && !s.done && !s.first && s.calls == |s.ends| <= max && s.pending == []
    && s.t.added == Earlier(b, s.ends, |s.ends|) + Given(w, max, b, s.ends, |s.ends|)
    && Accounted(w, b, s.t.added, s.queues)
    && s.queues.polls == b.q.polls + 1 + |s.ends| + FollowUpStarts(s.t.trace)
    && AllTook(w, max, b, s.ends) && AllFollowed(w, max, b, s.t.trace, s.ends, |s.ends|)
  }

  lemma FollowedGrows(w: World, max: nat, b: Start, trace: seq<Event>, more: seq<Event>, ends: seq<Transcript>, n: nat)
    requires n <= |ends| && AllFollowed(w, max, b, trace, ends, n)
    ensures AllFollowed(w, max, b, trace + more, ends, n)
  {
    forall i | 0 <= i < n ensures GoneOn(trace + more, ends[i], After(w, max, b, ends[i], i)) {
      assert GoneOn(trace, ends[i], After(w, max, b, ends[i], i));
    }
  }

  lemma LastFollowed(trace: seq<Event>, e: Transcript, next: Next, items: seq<Item>)
    requires match next
             case NextTurn(due) => due == items && trace == e.trace
             case NextRound(due) => due == items && trace == e.trace + [FollowUpStart]
             case NextEnd => false
    ensures GoneOn(trace + ([TurnStart] + Pairs(Messages(items))), e, next)
  {
    var more := Pairs(Messages(items));
    assert e.trace + [FollowUpStart] + ([TurnStart] + more) == e.trace + [FollowUpStart, TurnStart] + more;
    assert e.trace + ([TurnStart] + more) == e.trace + [TurnStart] + more;
  }

  lemma BeginTrace(s: Run)
    ensures Begin(s).t.trace == s.t.trace + ((if s.first then [] else [TurnStart]) + Pairs(Messages(s.pending)))
    ensures FollowUpStarts(Begin(s).t.trace) == FollowUpStarts(s.t.trace)
  {
    var more := (if s.first then [] else [TurnStart]) + Pairs(Messages(s.pending));
    assert Begin(s).t.trace == s.t.trace + more;
    PairsInner(Messages(s.pending));
    NoFollowUp(s.t.trace, more);
  }

  lemma BeginFollowed(w: World, max: nat, b: Start, s: Run)
    requires Due(w, max, b, s) && AllFollowed(w, max, b, s.t.trace, s.ends, if s.ends == [] then 0 else |s.ends| - 1)
    ensures AllFollowed(w, max, b, Begin(s).t.trace, s.ends, |s.ends|)
  {
    var n := |s.ends|;
    BeginTrace(s);
    if n > 0 {
      var more, e := [TurnStart] + Pairs(Messages(s.pending)), s.ends[n - 1];
      FollowedGrows(w, max, b, s.t.trace, more, s.ends, n - 1);
      LastFollowed(s.t.trace, e, After(w, max, b, e, n - 1), s.pending);
      OneMoreFollowed(w, max, b, s.t.trace + more, s.ends, n - 1);
    }
  }

  lemma OneMoreFollowed(w: World, max: nat, b: Start, trace: seq<Event>, ends: seq<Transcript>, n: nat)
    requires n < |ends| && AllFollowed(w, max, b, trace, ends, n)
    requires GoneOn(trace, ends[n], After(w, max, b, ends[n], n))
    ensures AllFollowed(w, max, b, trace, ends, n + 1)
  {}

  lemma BeginRuns(w: World, max: nat, b: Start, s: Run)
    requires Going(w, max, b, s)
    ensures Running(w, max, b, Begin(s))
  {
    BeginTrace(s);
    BeginFollowed(w, max, b, s);
  }

  /** A turn has just ended. */
  ghost predicate Turned(w: World, max: nat, b: Start, s: Run) {
    && !s.done && s.ends != [] && s.pending == [] && !s.first
    && var l := |s.ends| - 1; var e := s.ends[l];
       && s.calls == (if l < max then l + 1 else max) && s.t.trace == e.trace && s.t.added == e.added
       && Accounted(w, b, e.added, s.queues) && s.queues.polls == Polls(b, e, l)
       && AllTook(w, max, b, s.ends) && AllFollowed(w, max, b, s.t.trace, s.ends, l)
  }

  lemma SameBefore(w: World, max: nat, b: Start, ends: seq<Transcript>, e: Transcript, i: nat)
    requires i <= |ends|
    ensures Given(w, max, b, ends + [e], i) == Given(w, max, b, ends, i)
    ensures Earlier(b, ends + [e], i) == Earlier(b, ends, i)
  {}

  lemma TookMore(w: World, max: nat, b: Start, ends: seq<Transcript>, e: Transcript)
    requires AllTook(w, max, b, ends) && EndsTurn(w, max, e, |ends|)
    requires e.added == Earlier(b, ends, |ends|) + Given(w, max, b, ends, |ends|) + Produced(w, max, e, |ends|)
    ensures AllTook(w, max, b, ends + [e])
  {
    forall i | 0 <= i < |ends + [e]| ensures Took(w, max, b, ends + [e], i) {
      SameBefore(w, max, b, ends, e, i);
      if i < |ends| { assert Took(w, max, b, ends, i); }
    }
  }

  lemma FollowedBefore(w: World, max: nat, b: Start, trace: seq<Event>, ends: seq<Transcript>, e: Transcript)
    requires AllFollowed(w, max, b, trace, ends, |ends|)
    ensures AllFollowed(w, max, b, trace, ends + [e], |ends|)
  {
    forall i | 0 <= i < |ends| ensures GoneOn(trace, (ends + [e])[i], After(w, max, b, (ends + [e])[i], i)) {
      assert GoneOn(trace, ends[i], After(w, max, b, ends[i], i));
    }
  }

  /** The record of a turn joins those before it. */
  lemma TurnJoins(w: World, max: nat, b: Start, s: Run, e: Transcript, more: seq<Event>)
    requires Running(w, max, b, s) && e.trace == s.t.trace + more
    requires EndsTurn(w, max, e, |s.ends|) && e.added == s.t.added + Produced(w, max, e, |s.ends|)
    ensures AllTook(w, max, b, s.ends + [e]) && AllFollowed(w, max, b, e.trace, s.ends + [e], |s.ends|)
  {
    TookMore(w, max, b, s.ends, e);
    FollowedGrows(w, max, b, s.t.trace, more, s.ends, |s.ends|);
    FollowedBefore(w, max, b, e.trace, s.ends, e);
  }

  /** A turn ends after adding messages of its own, with events that stay within it. */
  lemma CloseTurned(w: World, max: nat, b: Start, s: Run, r: Run, ms: seq<Message>, more: seq<Event>, a: Assistant,
                    results: seq<Message>)
    requires Running(w, max, b, s) && r.ends == s.ends && r.queues == s.queues && r.pending == [] && !r.done && !r.first
    requires r.t.added == s.t.added + Tag(Loop, ms) && r.t.trace == s.t.trace + more && Inner(more)
    requires r.calls == if |s.ends| < max then |s.ends| + 1 else max
    requires var e := Close(r.t, a, results);
             EndsTurn(w, max, e, |s.ends|) && Produced(w, max, e, |s.ends|) == Tag(Loop, ms)
    ensures Turned(w, max, b, EndTurn(r, a, results))
  {
    var e, all := Close(r.t, a, results), more + [TurnEnd(Reply(a), results)];
    Assoc(s.t.trace, more, [TurnEnd(Reply(a), results)]);
    NoFollowUp(s.t.trace, all);
    LoopAccounted(w, b, s.t.added, ms, s.queues);
    TurnJoins(w, max, b, s, e, all);
  }

  lemma ExhaustTurned(w: World, max: nat, b: Start, s: Run)
    requires Running(w, max, b, s) && s.calls == max
    ensures var r := s.(t := Inject(s.t, [Item(Loop, Reply(w.exhausted))]));
            Turned(w, max, b, EndTurn(r, w.exhausted, []))
  {
    var m := Reply(w.exhausted);
    var r := s.(t := Inject(s.t, [Item(Loop, m)]));
    assert Tag(Loop, [m]) == [Item(Loop, m)] && Messages([Item(Loop, m)]) == [m];
    PairsInner([m]);
    var e := Close(r.t, w.exhausted, []);
    assert e.trace[|e.trace| - 1] == TurnEnd(m, []);
    CloseTurned(w, max, b, s, r, [m], Pairs([m]), w.exhausted, []);
  }

  /** The messages of a turn with a reply. */
  lemma ReplyItems(a: Assistant, results: seq<Message>)
    ensures Tag(Loop, [Reply(a)] + results) == [Item(Loop, Reply(a))] + Tag(Loop, results)
  {}

  lemma FailedTurned(w: World, max: nat, b: Start, s: Run)
    requires Running(w, max, b, s) && s.calls < max && Failed(w.respond(s.calls).final)
    ensures Turned(w, max, b, EndTurn(Replied(w, s), w.respond(s.calls).final, []))
  {
    var x, a := w.respond(s.calls), w.respond(s.calls).final;
    var r := Replied(w, s);
    var more := AssistantStream.Stream(s.t.context, x.stream, a, false).trace;
    StreamInner(s.t.context, x.stream, a, false);
    ReplyItems(a, []);
    assert [Reply(a)] + [] == [Reply(a)] && Tag(Loop, []) == [];
    var e := Close(r.t, a, []);
    assert e.trace[|e.trace| - 1] == TurnEnd(Reply(a), []);
    CloseTurned(w, max, b, s, r, [Reply(a)], more, a, []);
  }

  lemma AnsweredTurned(w: World, max: nat, b: Start, s: Run)
    requires Running(w, max, b, s) && s.calls < max && !Failed(w.respond(s.calls).final)
    ensures var a := w.respond(s.calls).final; var batch := BatchOf(w, s.calls, a);
            Turned(w, max, b, EndTurn(RunTools(Replied(w, s), batch), a, batch.messages))
  {
    var x, a := w.respond(s.calls), w.respond(s.calls).final;
    var batch := BatchOf(w, s.calls, a);
    var r := RunTools(Replied(w, s), batch);
    var more := AssistantStream.Stream(s.t.context, x.stream, a, false).trace;
    StreamInner(s.t.context, x.stream, a, false);
    BatchSound(w, s.calls, a);
    ReplyItems(a, batch.messages);
    Assoc(s.t.added, [Item(Loop, Reply(a))], Tag(Loop, batch.messages));
    Assoc(s.t.trace, more, batch.piece.trace);
    var e := Close(r.t, a, batch.messages);
    assert e.trace[|e.trace| - 1] == TurnEnd(Reply(a), batch.messages);
    CloseTurned(w, max, b, s, r, [Reply(a)] + batch.messages, more + batch.piece.trace, a, batch.messages);
  }

  // --- what follows ---

  lemma EndOver(w: World, max: nat, b: Start, s: Run)
    requires Turned(w, max, b, s)
    requires var l := |s.ends| - 1; After(w, max, b, s.ends[l], l) == NextEnd
    ensures Over(w, max, b, EndRun(s))
  {
    FollowedGrows(w, max, b, s.t.trace, [AgentEnd(Messages(s.t.added))], s.ends, |s.ends| - 1);
  }

  /** The steering poll after a turn that did not end the run. */
  lemma SteerDue(w: World, max: nat, b: Start, s: Run)
    requires Turned(w, max, b, s)
    ensures var l := |s.ends| - 1; var e := s.ends[l]; var r := Steer(w, s); var due := SteeringDue(w, b, e, l);
            && r == s.(pending := Tag(Steering, due), queues := r.queues)
            && Accounted(w, b, e.added + r.pending, r.queues) && r.queues.polls == Polls(b, e, l) + 1
  {
    var l := |s.ends| - 1;
    SteeringPoll(w, b, s.ends[l], l, s.queues);
  }

  function Items(next: Next): seq<Item> { if next.NextEnd? then [] else next.items }

  /** The run goes on with what follows. */
  lemma NextGoes(w: World, max: nat, b: Start, s: Run, r: Run, next: Next)
    requires Turned(w, max, b, s) && next != NextEnd
    requires var l := |s.ends| - 1; var e := s.ends[l];
             && next == After(w, max, b, e, l) && l < max
             && Accounted(w, b, e.added + Items(next), r.queues)
             && r.queues.polls == Polls(b, e, l) + (if next.NextRound? then 2 else 1)
    requires r == s.(t := if next.NextRound? then Emit(s.t, [FollowUpStart]) else s.t, pending := Items(next),
                     queues := r.queues)
    ensures Going(w, max, b, r)
  {
    if next.NextRound? {
      OneFollowUp(s.t.trace);
      FollowedGrows(w, max, b, s.t.trace, [FollowUpStart], s.ends, |s.ends| - 1);
    }
  }

  lemma SteerGoes(w: World, max: nat, b: Start, s: Run)
    requires Turned(w, max, b, s)
    requires var l := |s.ends| - 1; l < max && After(w, max, b, s.ends[l], l).NextTurn?
    ensures Going(w, max, b, Steer(w, s))
  {
    var l := |s.ends| - 1;
    SteerDue(w, max, b, s);
    NextGoes(w, max, b, s, Steer(w, s), After(w, max, b, s.ends[l], l));
  }

  /** The follow-up poll where the agent would stop. */
  lemma FollowUpDue(w: World, max: nat, b: Start, s: Run)
    requires Turned(w, max, b, s)
    requires var l := |s.ends| - 1; SteeringDue(w, b, s.ends[l], l) == []
    ensures var l := |s.ends| - 1; var e := s.ends[l]; var due := FollowUpsDue(w, b, e, l);
            var x := Steer(w, s); var (ms, q) := PollFollowUps(w, x.queues);
            && x == s.(queues := x.queues) && ms == due
            && Accounted(w, b, e.added + Tag(FollowUp, due), q) && q.polls == Polls(b, e, l) + 2
  {
    var l := |s.ends| - 1;
    var e := s.ends[l];
    SteerDue(w, max, b, s);
    assert Tag(Steering, []) == [] && e.added + [] == e.added;
    FollowUpPoll(w, b, e, l, Steer(w, s).queues);
  }

  lemma StopsOver(w: World, max: nat, b: Start, s: Run)
    requires Turned(w, max, b, s)
    requires var l := |s.ends| - 1; var e := s.ends[l];
             SteeringDue(w, b, e, l) == [] && FollowUpsDue(w, b, e, l) == [] && After(w, max, b, e, l) == NextEnd
    ensures Over(w, max, b, WouldStop(w, Steer(w, s)))
  {
    FollowUpDue(w, max, b, s);
    EndOver(w, max, b, s);
    assert WouldStop(w, Steer(w, s)) == EndRun(s).(queues := WouldStop(w, Steer(w, s)).queues);
  }

  lemma FollowsUp(w: World, max: nat, b: Start, s: Run)
    requires Turned(w, max, b, s)
    requires var l := |s.ends| - 1; var e := s.ends[l];
             SteeringDue(w, b, e, l) == [] && FollowUpsDue(w, b, e, l) != [] && l < max
             && After(w, max, b, e, l).NextRound?
    ensures Going(w, max, b, WouldStop(w, Steer(w, s)))
  {
    var l := |s.ends| - 1;
    FollowUpDue(w, max, b, s);
    NextGoes(w, max, b, s, WouldStop(w, Steer(w, s)), After(w, max, b, s.ends[l], l));
  }

  /** The stretch of a round after the turn_end of a reply that did not fail. */
  lemma RoundAfterTurn(w: World, max: nat, b: Start, s: Run)
    requires Turned(w, max, b, s)
    requires var l := |s.ends| - 1; l < max && !Failed(w.respond(l).final) && !w.stops(l)
    ensures var e := s.ends[|s.ends| - 1]; var x := Steer(w, s);
            var r := if GoesOn(ResultsAt(e)) || x.pending != [] then x else WouldStop(w, x);
            if r.done then Over(w, max, b, r) else Going(w, max, b, r)
  {
    var l := |s.ends| - 1;
    var e := s.ends[l];
    SteerDue(w, max, b, s);
    if GoesOn(ResultsAt(e)) || SteeringDue(w, b, e, l) != [] { SteerGoes(w, max, b, s); }
    else if FollowUpsDue(w, b, e, l) != [] { FollowsUp(w, max, b, s); }
    else { StopsOver(w, max, b, s); }
  }

  lemma PrepareTurned(w: World, max: nat, b: Start, s: Run, n: nat)
    requires Turned(w, max, b, s)
    ensures Turned(w, max, b, PrepareNext(w, n, s))
  {}

  lemma FailedOver(w: World, max: nat, b: Start, s: Run)
    requires Running(w, max, b, s) && s.calls < max && Failed(w.respond(s.calls).final)
    ensures Answer(w, s).0.done && Over(w, max, b, Answer(w, s).0)
  {
    var x := EndTurn(Replied(w, s), w.respond(s.calls).final, []);
    FailedTurned(w, max, b, s);
    assert |x.ends| - 1 == s.calls && Answer(w, s).0 == EndRun(x);
    EndOver(w, max, b, x);
  }

  /** The run right after the n-th reply's turn_end and prepareNextTurn. */
  function Answered(w: World, s: Run): Run {
    var a := w.respond(s.calls).final;
    var batch := BatchOf(w, s.calls, a);
    PrepareNext(w, s.calls, EndTurn(RunTools(Replied(w, s), batch), a, batch.messages))
  }

  lemma AnsweredReady(w: World, max: nat, b: Start, s: Run)
    requires Running(w, max, b, s) && s.calls < max && !Failed(w.respond(s.calls).final)
    ensures var x := Answered(w, s); var l := |x.ends| - 1;
            && Turned(w, max, b, x) && l == s.calls
            && ResultsAt(x.ends[l]) == BatchOf(w, l, w.respond(l).final).messages
  {
    var a := w.respond(s.calls).final;
    var batch := BatchOf(w, s.calls, a);
    AnsweredTurned(w, max, b, s);
    PrepareTurned(w, max, b, EndTurn(RunTools(Replied(w, s), batch), a, batch.messages), s.calls);
  }

  lemma AnswerGoes(w: World, max: nat, b: Start, s: Run)
    requires Running(w, max, b, s) && s.calls < max
    ensures var (x, more) := Answer(w, s); var r := if x.done || more || x.pending != [] then x else WouldStop(w, x);
            if r.done then Over(w, max, b, r) else Going(w, max, b, r)
  {
    var n, a := s.calls, w.respond(s.calls).final;
    if Failed(a) {
      FailedOver(w, max, b, s);
    } else {
      var x := Answered(w, s);
      AnsweredReady(w, max, b, s);
      BatchAnswers(w, n, a);
      assert Answer(w, s) == if w.stops(n) then (EndRun(x), false) else (Steer(w, x), !BatchOf(w, n, a).terminate);
      if w.stops(n) { EndOver(w, max, b, x); } else { RoundAfterTurn(w, max, b, x); }
    }
  }

  lemma RoundGoes(w: World, max: nat, b: Start, s: Run)
    requires Going(w, max, b, s)
    ensures var r := Round(w, max, s); if r.done then Over(w, max, b, r) else Going(w, max, b, r)
  {
    var x := Begin(s);
    BeginRuns(w, max, b, s);
    if x.calls >= max {
      var r := x.(t := Inject(x.t, [Item(Loop, Reply(w.exhausted))]));
      ExhaustTurned(w, max, b, x);
      EndOver(w, max, b, EndTurn(r, w.exhausted, []));
    } else {
      AnswerGoes(w, max, b, x);
    }
  }

  lemma {:induction false} PlayGoes(w: World, max: nat, b: Start, s: Run)
    requires Going(w, max, b, s) && Within(max, s)
    ensures Over(w, max, b, Play(w, max, s))
    decreases Measure(max, s)
  {
    var r := Round(w, max, s);
    RoundGoes(w, max, b, s);
    RoundWithin(w, max, s);
    if !r.done { PlayGoes(w, max, b, r); }
  }

  // --- the start ---

  lemma FirstPoll(w: World, b: Start)
    ensures var (ms, q) := PollSteering(w, b.q);
            Tag(Steering, ms) == FirstDue(w, b) && q.polls == b.q.polls + 1
            && Accounted(w, b, b.prompts + Tag(Steering, ms), q)
  {
    var r := Arrive(w, b.q).(skip := false);
    assert b.prompts[|b.prompts|..] == [];
    Assoc(b.q.steering, [], w.steered(b.q.polls));
    assert Arrivals(w.steered, b.q.polls, b.q.polls + 1) == w.steered(b.q.polls);
    assert Arrivals(w.followedUp, b.q.polls, b.q.polls + 1) == w.followedUp(b.q.polls);
    assert Accounted(w, b, b.prompts, r);
    assert Tag(Steering, []) == [] && b.prompts + [] == b.prompts;
    PortionIsDrained(w.steerAll(b.q.polls), r.steering);
    TakesSteering(w, b, b.prompts, r, w.steerAll(b.q.polls));
  }

  lemma OpeningIs(context: seq<Message>, prompts: seq<Item>, q: Queues)
    ensures Opening(context, prompts, q).t.added == prompts && FollowUpStarts(Opening(context, prompts, q).t.trace) == 0
  {
    var s, more := Opening(context, prompts, q), [AgentStart, TurnStart] + Pairs(Messages(prompts));
    PairsInner(Messages(prompts));
    assert [] + prompts == prompts;
    NoFollowUp([], more);
    assert [] + more == s.t.trace;
  }

  lemma LaunchGoes(w: World, max: nat, context: seq<Message>, prompts: seq<Item>, q: Queues)
    ensures Going(w, max, Start(prompts, q), Launch(w, context, prompts, q))
  {
    var s := Launch(w, context, prompts, q);
    FirstPoll(w, Start(prompts, q));
    OpeningIs(context, prompts, q);
    assert s.t == Opening(context, prompts, q).t && s.ends == [] && s.first;
    assert Due(w, max, Start(prompts, q), s);
  }

  lemma Extends(a: seq<Event>, b: seq<Event>, c: seq<Event>)
    requires a <= b && b <= c
    ensures a <= c
  {}

  lemma RoundExtends(w: World, max: nat, s: Run)
    ensures Begin(s).t.trace <= Round(w, max, s).t.trace
  {
    var x := Begin(s);
    var (r, more) := Turn(w, max, s);
    if x.calls < max { AnswerExtends(w, x); }
    assert x.t.trace <= r.t.trace;
  }

  lemma AnswerExtends(w: World, s: Run)
    ensures s.t.trace <= Answer(w, s).0.t.trace
  {
    var x, n, a := Replied(w, s), s.calls, w.respond(s.calls).final;
    var more := AssistantStream.Stream(s.t.context, w.respond(n).stream, a, false).trace;
    assert x.t.trace == s.t.trace + more;
    if Failed(a) {
      var last := [TurnEnd(Reply(a), []), AgentEnd(Messages(x.t.added))];
      assert Answer(w, s).0.t.trace == s.t.trace + (more + last);
    } else {
      AnsweredExtends(w, s);
      var y := Answered(w, s);
      assert Answer(w, s).0.t.trace == if w.stops(n) then y.t.trace + [AgentEnd(Messages(y.t.added))] else y.t.trace;
    }
  }

  lemma AnsweredExtends(w: World, s: Run)
    ensures s.t.trace <= Answered(w, s).t.trace
  {
    var x, n, a := Replied(w, s), s.calls, w.respond(s.calls).final;
    var more := AssistantStream.Stream(s.t.context, w.respond(n).stream, a, false).trace;
    var batch := BatchOf(w, n, a);
    assert x.t.trace == s.t.trace + more;
    assert Answered(w, s).t.trace == s.t.trace + (more + batch.piece.trace + [TurnEnd(Reply(a), batch.messages)]);
  }

  lemma {:induction false} PlayExtends(w: World, max: nat, s: Run)
    requires Within(max, s)
    ensures s.t.trace <= Play(w, max, s).t.trace
    decreases Measure(max, s)
  {
    if !s.done {
      RoundExtends(w, max, s);
      RoundWithin(w, max, s);
      PlayExtends(w, max, Round(w, max, s));
    }
  }

  /** The first turn begins with the prompts and the steering messages that wait. */
  lemma RunBegins(w: World, max: nat, context: seq<Message>, prompts: seq<Item>, q: Queues)
    ensures [AgentStart, TurnStart] + Pairs(Messages(prompts)) + Pairs(Messages(FirstDue(w, Start(prompts, q))))
         <= RunLoop(w, max, context, prompts, q).t.trace
  {
    var s := Launch(w, context, prompts, q);
    LaunchGoes(w, max, context, prompts, q);
    StartHolds(w, max, context, prompts, q);
    RoundExtends(w, max, s);
    RoundWithin(w, max, s);
    PlayExtends(w, max, Round(w, max, s));
    assert Begin(s).t.trace == [AgentStart, TurnStart] + Pairs(Messages(prompts)) + Pairs(Messages(s.pending));
  }

  lemma RunIsOver(w: World, max: nat, context: seq<Message>, prompts: seq<Item>, q: Queues)
    ensures Over(w, max, Start(prompts, q), RunLoop(w, max, context, prompts, q))
  {
    LaunchGoes(w, max, context, prompts, q);
    StartHolds(w, max, context, prompts, q);
    PlayGoes(w, max, Start(prompts, q), Launch(w, context, prompts, q));
  }

  /** The i-th turn of a run was as it should be. */
  ghost predicate WellTurned(w: World, max: nat, b: Start, r: Run, i: nat)
    requires i < |r.ends|
  {
    && Took(w, max, b, r.ends, i) && Followed(r.t.trace, r.ends[i], After(w, max, b, r.ends[i], i))
    && (After(w, max, b, r.ends[i], i) == NextEnd <==> i == |r.ends| - 1)
  }

  lemma OverAt(w: World, max: nat, b: Start, r: Run, i: nat)
    requires Over(w, max, b, r)
    ensures i < |r.ends| ==> WellTurned(w, max, b, r, i)
  {
    if i < |r.ends| {
      assert Took(w, max, b, r.ends, i);
      if i < |r.ends| - 1 { assert GoneOn(r.t.trace, r.ends[i], After(w, max, b, r.ends[i], i)); }
    }
  }

  // --- the main results ---

  /**
   * Every turn of every run takes exactly the messages due to it, adds its reply and the results of its calls, or the
   * report of the used-up budget, and is followed as `After` says: after a reply that did not fail and that the stop
   * hook lets pass, by another turn exactly when a result does not end the run or steering waits, else by a round of
   * follow-ups if one waits; and otherwise by agent_end, which is last.
   */
  lemma EveryTurnIsFollowed(w: World, max: nat, context: seq<Message>, prompts: seq<Item>, q: Queues, i: nat)
    ensures var r := RunLoop(w, max, context, prompts, q); var b := Start(prompts, q);
            && r.ends != [] && r.calls == (if |r.ends| <= max then |r.ends| else max)
            && (i < |r.ends| ==> WellTurned(w, max, b, r, i))
  {
    RunIsOver(w, max, context, prompts, q);
    OverAt(w, max, Start(prompts, q), RunLoop(w, max, context, prompts, q), i);
  }

  /**
   * While the budget lasts, the provider is asked again after every batch of tool calls with a result that does not
   * end the run, unless the reply failed or the stop hook ends the run.
   */
  lemma ToolResultsAreAnswered(w: World, max: nat, context: seq<Message>, prompts: seq<Item>, q: Queues, i: nat)
    ensures var r := RunLoop(w, max, context, prompts, q);
            i < |r.ends| && i + 1 < max && GoesOn(ResultsAt(r.ends[i])) && !w.stops(i)
            && w.respond(i).final.stopReason != Error && w.respond(i).final.stopReason != Aborted ==>
              && r.calls >= i + 2 && i + 1 < |r.ends|
              && r.ends[i].trace + [TurnStart] <= r.t.trace
              && r.ends[i + 1].trace != [] && r.ends[i + 1].trace[|r.ends[i + 1].trace| - 1].TurnEnd?
              && r.ends[i + 1].trace[|r.ends[i + 1].trace| - 1].message == Reply(w.respond(i + 1).final)
  {
    var r, b := RunLoop(w, max, context, prompts, q), Start(prompts, q);
    EveryTurnIsFollowed(w, max, context, prompts, q, i);
    EveryTurnIsFollowed(w, max, context, prompts, q, i + 1);
    if i < |r.ends| {
      var e := r.ends[i];
      match After(w, max, b, e, i)
      case NextTurn(items) => Extends(e.trace + [TurnStart], e.trace + [TurnStart] + Pairs(Messages(items)), r.t.trace);
      case _ =>
    }
  }

  lemma Begins(a: seq<Item>, b: seq<Item>, c: seq<Item>)
    ensures a <= a + b + c && a + b <= a + b + c
  {}

  lemma TookExtends(w: World, max: nat, b: Start, ends: seq<Transcript>, i: nat)
    requires 0 < i < |ends| && Took(w, max, b, ends, i)
    ensures ends[i - 1].added <= ends[i].added
  {
    Begins(ends[i - 1].added, Given(w, max, b, ends, i), Produced(w, max, ends[i], i));
  }

  lemma {:induction false} Ascend(ends: seq<Transcript>, l: nat)
    requires l < |ends| && forall i :: 0 < i <= l ==> ends[i - 1].added <= ends[i].added
    ensures ends[0].added <= ends[l].added
  {
    if l > 0 {
      Ascend(ends, l - 1);
      assert ends[l - 1].added <= ends[l].added;
    }
  }

  lemma AddedGrows(w: World, max: nat, b: Start, ends: seq<Transcript>, l: nat)
    requires l < |ends| && AllTook(w, max, b, ends)
    ensures ends[0].added <= ends[l].added
  {
    forall i | 0 < i <= l ensures ends[i - 1].added <= ends[i].added {
      assert Took(w, max, b, ends, i);
      TookExtends(w, max, b, ends, i);
    }
    Ascend(ends, l);
  }

  lemma FirstTook(w: World, max: nat, b: Start, ends: seq<Transcript>)
    requires ends != [] && max >= 1 && Took(w, max, b, ends, 0)
    ensures b.prompts + FirstDue(w, b) + [Item(Loop, Reply(w.respond(0).final))] <= ends[0].added
  {
    var given, reply := b.prompts + FirstDue(w, b), [Item(Loop, Reply(w.respond(0).final))];
    Assoc(given, reply, Tag(Loop, ResultsAt(ends[0])));
    Begins(given, reply, Tag(Loop, ResultsAt(ends[0])));
  }

  /** What a run adds begins with its prompts, the steering messages that waited, and the first reply. */
  lemma FirstReply(w: World, max: nat, context: seq<Message>, prompts: seq<Item>, q: Queues)
    requires max >= 1
    ensures var first := prompts + FirstDue(w, Start(prompts, q)) + [Item(Loop, Reply(w.respond(0).final))];
            first <= RunLoop(w, max, context, prompts, q).t.added
  {
    RunIsOver(w, max, context, prompts, q);
    OverBegins(w, max, Start(prompts, q), RunLoop(w, max, context, prompts, q));
  }

  lemma OverBegins(w: World, max: nat, b: Start, r: Run)
    requires Over(w, max, b, r) && max >= 1
    ensures b.prompts + FirstDue(w, b) + [Item(Loop, Reply(w.respond(0).final))] <= r.t.added
  {
    AddedGrows(w, max, b, r.ends, |r.ends| - 1);
    assert Took(w, max, b, r.ends, 0);
    FirstTook(w, max, b, r.ends);
  }

  // --- the context ---

  /** The context the i-th turn goes on from, and how many messages had been added by then. */
  function RootAt(w: World, base: seq<Message>, ends: seq<Transcript>, i: nat): (seq<Message>, nat)
    requires i <= |ends|
  {
    if i == 0 then (base, 0)
    else if w.handsBack(i - 1).Some? then (w.handsBack(i - 1).value, |ends[i - 1].added|)
    else RootAt(w, base, ends, i - 1)
  }

  lemma {:induction false} RootBefore(w: World, base: seq<Message>, ends: seq<Transcript>, e: Transcript, i: nat)
    requires i <= |ends|
    ensures RootAt(w, base, ends + [e], i) == RootAt(w, base, ends, i)
  {
    if i > 0 { RootBefore(w, base, ends, e, i - 1); }
  }

  ghost predicate RootsKept(w: World, base: seq<Message>, ends: seq<Transcript>) {
    forall i {:trigger RootAt(w, base, ends, i)} :: 0 <= i < |ends| ==>
      (ends[i].root, ends[i].from) == RootAt(w, base, ends, i)
  }

  ghost predicate RootedRun(w: World, base: seq<Message>, s: Run) {
    && RootsKept(w, base, s.ends)
    && (!s.done ==> s.calls == |s.ends| && (s.t.root, s.t.from) == RootAt(w, base, s.ends, |s.ends|))
  }

  lemma RootPushed(w: World, base: seq<Message>, ends: seq<Transcript>, e: Transcript)
    requires RootsKept(w, base, ends) && (e.root, e.from) == RootAt(w, base, ends, |ends|)
    ensures RootsKept(w, base, ends + [e])
  {
    forall i | 0 <= i < |ends + [e]|
      ensures ((ends + [e])[i].root, (ends + [e])[i].from) == RootAt(w, base, ends + [e], i)
    {
      RootBefore(w, base, ends, e, i);
    }
  }

  lemma AnsweredRooted(w: World, base: seq<Message>, s: Run)
    requires RootedRun(w, base, s) && !s.done
    ensures var x := Answered(w, s);
            RootsKept(w, base, x.ends) && (x.t.root, x.t.from) == RootAt(w, base, x.ends, |x.ends|)
  {
    var n, x := s.calls, Answered(w, s);
    var e := x.ends[n];
    assert x.ends == s.ends + [e] && (e.root, e.from) == (s.t.root, s.t.from);
    RootPushed(w, base, s.ends, e);
    RootBefore(w, base, s.ends, e, n);
    assert x.t.added == e.added;
  }

  lemma AnswerRooted(w: World, base: seq<Message>, s: Run)
    requires RootedRun(w, base, s) && !s.done
    ensures RootedRun(w, base, Answer(w, s).0)
  {
    var n, a := s.calls, w.respond(s.calls).final;
    if Failed(a) {
      RootPushed(w, base, s.ends, Close(Replied(w, s).t, a, []));
    } else {
      var x := Answered(w, s);
      AnsweredRooted(w, base, s);
      assert Answer(w, s).0 == if w.stops(n) then EndRun(x) else Steer(w, x);
    }
  }

  lemma RoundRooted(w: World, max: nat, base: seq<Message>, s: Run)
    requires RootedRun(w, base, s) && !s.done
    ensures RootedRun(w, base, Round(w, max, s))
  {
    var x := Begin(s);
    assert RootedRun(w, base, x);
    if x.calls >= max {
      RootPushed(w, base, s.ends, Close(Inject(x.t, [Item(Loop, Reply(w.exhausted))]), w.exhausted, []));
    } else {
      AnswerRooted(w, base, x);
    }
  }

  lemma {:induction false} PlayRooted(w: World, max: nat, base: seq<Message>, s: Run)
    requires RootedRun(w, base, s) && Within(max, s)
    ensures RootedRun(w, base, Play(w, max, s))
    decreases Measure(max, s)
  {
    if !s.done {
      RoundRooted(w, max, base, s);
      RoundWithin(w, max, s);
      PlayRooted(w, max, base, Round(w, max, s));
    }
  }

  /** Every turn works on the context prepareNextTurn last handed back before it, or on the one the run began with. */
  lemma ContextsAreHandedOn(w: World, max: nat, context: seq<Message>, prompts: seq<Item>, q: Queues, i: nat)
    ensures var r := RunLoop(w, max, context, prompts, q);
            i < |r.ends| ==> (r.ends[i].root, r.ends[i].from) == RootAt(w, context, r.ends, i)
  {
    var s := Launch(w, context, prompts, q);
    StartHolds(w, max, context, prompts, q);
    assert RootedRun(w, context, s);
    PlayRooted(w, max, context, s);
  }
}
