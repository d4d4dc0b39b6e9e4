/** Steering and follow-up messages over any number of runs: nothing is lost, repeated or reordered. */
module QueueConservation {
  import opened Basics
  import opened AgentEvents
  import opened LoopMachine
  import opened LoopRuns

  /** The messages of one source, in order. */
  function Select(items: seq<Item>, source: Source): seq<Message> {
    if items == [] then []
    else (if items[0].source == source then [items[0].message] else []) + Select(items[1..], source)
  }

  lemma {:induction false} SelectAppend(a: seq<Item>, b: seq<Item>, source: Source)
    ensures Select(a + b, source) == Select(a, source) + Select(b, source)
  {
    if a == [] {
      assert a + b == b;
    } else {
      assert (a + b)[1..] == a[1..] + b;
      SelectAppend(a[1..], b, source);
      Assoc(if a[0].source == source then [a[0].message] else [], Select(a[1..], source), Select(b, source));
    }
  }

  lemma {:induction false} SelectTag(tag: Source, ms: seq<Message>, source: Source)
    ensures Select(Tag(tag, ms), source) == if tag == source then ms else []
  {
    if ms != [] {
      assert Tag(tag, ms)[1..] == Tag(tag, ms[1..]);
      SelectTag(tag, ms[1..], source);
      assert ms == [ms[0]] + ms[1..];
    }
  }

  function Queue(q: Queues, source: Source): seq<Message> { if source == Steering then q.steering else q.followUps }

  function Enqueued(q: Queues, source: Source): seq<Message> { if source == Steering then q.steered else q.followed }

  predicate IsQueue(source: Source) { source == Steering || source == FollowUp }

  /** All that was ever queued is what went into transcripts, then what still waits. */
  ghost predicate Balanced(items: seq<Item>, q: Queues, source: Source) {
    Enqueued(q, source) == Select(items, source) + Queue(q, source)
  }

  /** In the middle of a run the drained messages are still pending. */
  ghost predicate Kept(log: seq<Item>, s: Run, source: Source) {
    Balanced(log + s.t.added + s.pending, s.queues, source)
  }

  lemma NothingPending(log: seq<Item>, s: Run, source: Source)
    requires s.pending == []
    ensures Kept(log, s, source) <==> Balanced(log + s.t.added, s.queues, source)
  {
    assert log + s.t.added + [] == log + s.t.added;
  }

  /** Messages of the loop itself do not count. */
  lemma LoopAdds(items: seq<Item>, ms: seq<Message>, q: Queues, source: Source)
    requires Balanced(items, q, source) && IsQueue(source)
    ensures Balanced(items + Tag(Loop, ms), q, source)
  {
    SelectAppend(items, Tag(Loop, ms), source);
    SelectTag(Loop, ms, source);
    assert Select(items, source) + [] == Select(items, source);
  }

  lemma Arrived(w: World, items: seq<Item>, q: Queues, source: Source)
    requires Balanced(items, q, source) && IsQueue(source)
    ensures Balanced(items, Arrive(w, q), source)
  {
    var more := if source == Steering then w.steered(q.polls) else w.followedUp(q.polls);
    Assoc(Select(items, source), Queue(q, source), more);
  }

  /** Draining moves messages from the head of the queue to the end of the ledger. */
  lemma DrainMoves(items: seq<Item>, q: Queues, r: Queues, tag: Source, all: bool, source: Source)
    requires Balanced(items, q, source) && IsQueue(source) && IsQueue(tag)
    requires Enqueued(r, source) == Enqueued(q, source)
    requires Queue(r, source) == if tag == source then LoopMachine.Rest(all, Queue(q, source)) else Queue(q, source)
    ensures Balanced(items + Tag(tag, Drained(all, Queue(q, tag))), r, source)
  {
    var ms := Drained(all, Queue(q, tag));
    SelectAppend(items, Tag(tag, ms), source);
    SelectTag(tag, ms, source);
    if tag == source {
      DrainSplits(all, Queue(q, source));
      Assoc(Select(items, source), ms, Queue(r, source));
    } else {
      assert Select(items, source) + [] == Select(items, source);
    }
  }

  lemma SteerBalances(w: World, items: seq<Item>, q: Queues, source: Source)
    requires Balanced(items, q, source) && IsQueue(source)
    ensures Balanced(items + Tag(Steering, PollSteering(w, q).0), PollSteering(w, q).1, source)
  {
    Arrived(w, items, q, source);
    if q.skip {
      assert items + Tag(Steering, []) == items;
    } else {
      DrainMoves(items, Arrive(w, q), PollSteering(w, q).1, Steering, w.steerAll(q.polls), source);
    }
  }

  lemma FollowUpBalances(w: World, items: seq<Item>, q: Queues, source: Source)
    requires Balanced(items, q, source) && IsQueue(source)
    ensures Balanced(items + Tag(FollowUp, PollFollowUps(w, q).0), PollFollowUps(w, q).1, source)
  {
    Arrived(w, items, q, source);
    DrainMoves(items, Arrive(w, q), PollFollowUps(w, q).1, FollowUp, w.followAll(q.polls), source);
  }

  // --- one round ---

  lemma BeginKept(log: seq<Item>, s: Run, source: Source)
    requires Kept(log, s, source)
    ensures Balanced(log + Begin(s).t.added, s.queues, source) && Begin(s).pending == [] && Begin(s).queues == s.queues
  {
    Assoc(log, s.t.added, s.pending);
  }

  lemma ReactKept(w: World, n: nat, log: seq<Item>, s: Run, a: Assistant, source: Source)
    requires Balanced(log + s.t.added, s.queues, source) && s.pending == [] && IsQueue(source) && !s.done
    ensures var r := React(w, n, s, a).0; Kept(log, r, source) && (r.done ==> r.pending == [])
  {
    var r := React(w, n, s, a).0;
    if Failed(a) {
      NothingPending(log, r, source);
    } else {
      var batch := BatchOf(w, n, a);
      LoopAdds(log + s.t.added, batch.messages, s.queues, source);
      Assoc(log, s.t.added, Tag(Loop, batch.messages));
      if w.stops(n) {
        NothingPending(log, r, source);
      } else {
        SteerBalances(w, log + (s.t.added + Tag(Loop, batch.messages)), s.queues, source);
      }
    }
  }

  lemma OneAdded(log: seq<Item>, t: Transcript, m: Message, q: Queues, source: Source)
    requires Balanced(log + t.added, q, source) && IsQueue(source)
    ensures Balanced(log + (t.added + [Item(Loop, m)]), q, source)
  {
    assert Tag(Loop, [m]) == [Item(Loop, m)];
    LoopAdds(log + t.added, [m], q, source);
    Assoc(log, t.added, [Item(Loop, m)]);
  }

  lemma TurnKept(w: World, max: nat, log: seq<Item>, s: Run, source: Source)
    requires Kept(log, s, source) && IsQueue(source) && !s.done
    ensures var r := Turn(w, max, s).0; Kept(log, r, source) && (r.done ==> r.pending == [])
  {
    var b := Begin(s);
    BeginKept(log, s, source);
    if b.calls >= max {
      OneAdded(log, b.t, Reply(w.exhausted), b.queues, source);
      NothingPending(log, Exhaust(w, b), source);
    } else {
      var a := w.respond(b.calls).final;
      OneAdded(log, b.t, Reply(a), b.queues, source);
      ReactKept(w, b.calls, log, Replied(w, b), a, source);
    }
  }

  lemma WouldStopKept(w: World, log: seq<Item>, s: Run, source: Source)
    requires Kept(log, s, source) && s.pending == [] && IsQueue(source) && !s.done
    ensures var r := WouldStop(w, s); Kept(log, r, source) && (r.done ==> r.pending == [])
  {
    NothingPending(log, s, source);
    FollowUpBalances(w, log + s.t.added, s.queues, source);
    var (ms, q) := PollFollowUps(w, s.queues);
    if ms == [] {
      assert log + s.t.added + Tag(FollowUp, ms) == log + s.t.added;
      NothingPending(log, WouldStop(w, s), source);
    }
  }

  lemma RoundKept(w: World, max: nat, log: seq<Item>, s: Run, source: Source)
    requires Kept(log, s, source) && IsQueue(source) && !s.done
    ensures var r := Round(w, max, s); Kept(log, r, source) && (r.done ==> r.pending == [])
  {
    TurnKept(w, max, log, s, source);
    var (r, more) := Turn(w, max, s);
    if !(r.done || more || r.pending != []) { WouldStopKept(w, log, r, source); }
  }

  lemma {:induction false} PlayKept(w: World, max: nat, log: seq<Item>, s: Run, source: Source)
    requires Kept(log, s, source) && IsQueue(source) && Within(max, s) && (s.done ==> s.pending == [])
    ensures Balanced(log + Play(w, max, s).t.added, Play(w, max, s).queues, source)
    decreases Measure(max, s)
  {
    if s.done {
      NothingPending(log, s, source);
    } else {
      RoundKept(w, max, log, s, source);
      RoundWithin(w, max, s);
      PlayKept(w, max, log, Round(w, max, s), source);
    }
  }

  /** On every exit path of a run, what it drained is in its transcript. */
  lemma NothingDrainedIsLost(w: World, max: nat, context: seq<Message>, log: seq<Item>, prompts: seq<Item>,
                             q: Queues, source: Source)
    requires Balanced(log + prompts, q, source) && IsQueue(source)
    ensures var r := RunLoop(w, max, context, prompts, q); Balanced(log + r.t.added, r.queues, source)
  {
    var o := Opening(context, prompts, q);
    assert o.t.added == prompts by { assert [] + prompts == prompts; }
    SteerBalances(w, log + prompts, q, source);
    PlayKept(w, max, log, Launch(w, context, prompts, q), source);
  }
}
