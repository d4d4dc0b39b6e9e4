/** The handoff over whole runs: from a record's offer to the acknowledge of its completion. */
module HandoffRuns {
  import opened Basics
  import opened LifecycleSteps
  import opened Handoff
  import L = LifecycleSafety
  import Q = CompletionStore
  import R = CompletionRuns

  /** In `w`, move `m` is record i's offer and the queue accepts it. */
  ghost predicate OffersAt(w: World, m: WorldMove, i: nat, c: Q.Config) {
    && m.OnRecord? && m.i == i && i < |w.recs| && Offers(w.recs[i], m.e)
    && StepWorld(w, m, c).recs[i].out.accepted
  }

  /** In `w`, move `m` acknowledges completion `t` for its newest claim. */
  ghost predicate AcksAt(w: World, m: WorldMove, t: nat) { m.OnQueue? && R.Acknowledges(w.queue, m.op, t) }

  lemma {:induction false} RunSplits(w: World, a: seq<WorldMove>, b: seq<WorldMove>, c: Q.Config)
    ensures RunWorld(w, a + b, c) == RunWorld(RunWorld(w, a, c), b, c)
    decreases |a|
  {
    if a == [] {
      assert a + b == b;
    } else {
      assert (a + b)[1..] == a[1..] + b;
      RunSplits(StepWorld(w, a[0], c), a[1..], b, c);
    }
  }

  /** The world before the k-th move. */
  function Before(w: World, moves: seq<WorldMove>, k: nat, c: Q.Config): World
    requires k <= |moves|
  {
    RunWorld(w, moves[..k], c)
  }

  lemma LaterMove(w: World, moves: seq<WorldMove>, k: nat, c: Q.Config)
    requires 0 < k <= |moves|
    ensures Before(w, moves, k, c) == Before(StepWorld(w, moves[0], c), moves[1..], k - 1, c)
  {
    assert moves[..k][1..] == moves[1..][..k - 1];
  }

  // --- from the offer on ---

  /** Record i is queued as `t`, a completion that says `info` and is still to be delivered. */
  ghost predicate Delivers(w: World, i: nat, t: nat, info: Q.Info) {
    && i < |w.recs| && w.recs[i].out.accepted && i in w.tickets && w.tickets[i] == t
    && !R.Gone(Q.Get(w.queue, t)) && Q.Get(w.queue, t).value.info == info
  }

  ghost predicate SameRecord(w: World, w': World, i: nat)
    requires i < |w.recs|
  {
    && i < |w'.recs| && w'.recs[i].who == w.recs[i].who && w'.recs[i].out == w.recs[i].out
    && (i in w.tickets ==> i in w'.tickets && w'.tickets[i] == w.tickets[i])
  }

  lemma QueuedStays(w: World, m: WorldMove, c: Q.Config, i: nat)
    requires Inv(w) && i < |w.recs| && w.recs[i].out.accepted
    ensures SameRecord(w, StepWorld(w, m, c), i)
  {
    if m.OnRecord? && m.i == i {
      assert L.Inv(w.recs[i]);
      QuietStep(w.recs[i], m.e);
    }
  }

  /** The queue operation a move amounts to, if any. */
  function Operation(w: World, m: WorldMove): Option<Q.Op> {
    match m
    case NewRecord(_) => None
    case OnRecord(i, e, now, now') =>
      if i < |w.recs| && Offers(w.recs[i], e) then Some(Q.OpEnqueue(Offer(w.recs[i], e), now, now')) else None
    case OnQueue(op) => Some(op)
  }

  lemma MoveOfQueue(w: World, m: WorldMove, c: Q.Config)
    ensures StepWorld(w, m, c).queue
         == if Operation(w, m).Some? then Q.Step(w.queue, Operation(w, m).value, c) else w.queue
  {}

  lemma DeliversNext(w: World, m: WorldMove, c: Q.Config, i: nat, t: nat, info: Q.Info)
    requires Inv(w) && Delivers(w, i, t, info)
    ensures AcksAt(w, m, t) || Delivers(StepWorld(w, m, c), i, t, info)
  {
    QueuedStays(w, m, c, i);
    MoveOfQueue(w, m, c);
    var op := Operation(w, m);
    if op.Some? { QueueKeepsDelivering(w.queue, op.value, c, t); }
  }

  ghost predicate AckedWithin(w: World, moves: seq<WorldMove>, c: Q.Config, t: nat) {
    exists k :: 0 <= k < |moves| && AcksAt(Before(w, moves, k, c), moves[k], t)
  }

  lemma AckedNow(w: World, moves: seq<WorldMove>, c: Q.Config, t: nat)
    requires moves != [] && AcksAt(w, moves[0], t)
    ensures AckedWithin(w, moves, c, t)
  {
    assert Before(w, moves, 0, c) == w;
  }

  lemma AckedNext(w: World, moves: seq<WorldMove>, c: Q.Config, t: nat)
    requires moves != [] && AckedWithin(StepWorld(w, moves[0], c), moves[1..], c, t)
    ensures AckedWithin(w, moves, c, t)
  {
    var next := StepWorld(w, moves[0], c);
    var k :| 0 <= k < |moves[1..]| && AcksAt(Before(next, moves[1..], k, c), moves[1..][k], t);
    LaterMove(w, moves, k + 1, c);
    assert AcksAt(Before(w, moves, k + 1, c), moves[k + 1], t);
  }

  /** A completion that is to be delivered stays so until a later move acknowledges it. */
  lemma {:induction false} DeliversUntilAcked(w: World, moves: seq<WorldMove>, c: Q.Config, i: nat, t: nat,
                                              info: Q.Info)
    requires Inv(w) && Delivers(w, i, t, info)
    ensures Delivers(RunWorld(w, moves, c), i, t, info) || AckedWithin(w, moves, c, t)
    decreases |moves|
  {
    if moves != [] {
      DeliversNext(w, moves[0], c, i, t, info);
      if AcksAt(w, moves[0], t) {
        AckedNow(w, moves, c, t);
      } else {
        MoveKeeps(w, moves[0], c);
        DeliversUntilAcked(StepWorld(w, moves[0], c), moves[1..], c, i, t, info);
        if AckedWithin(StepWorld(w, moves[0], c), moves[1..], c, t) { AckedNext(w, moves, c, t); }
      }
    }
  }

  lemma {:induction false} QueuedStaysForGood(w: World, moves: seq<WorldMove>, c: Q.Config, i: nat)
    requires Inv(w) && i < |w.recs| && w.recs[i].out.accepted
    ensures SameRecord(w, RunWorld(w, moves, c), i)
    decreases |moves|
  {
    if moves != [] {
      assert Ticketed(w, i);
      QueuedStays(w, moves[0], c, i);
      MoveKeeps(w, moves[0], c);
      QueuedStaysForGood(StepWorld(w, moves[0], c), moves[1..], c, i);
    }
  }

  // --- back to the offer ---

  lemma AcceptedByOffer(w: World, m: WorldMove, c: Q.Config, i: nat)
    requires Inv(w) && (i < |w.recs| ==> !w.recs[i].out.accepted)
    requires i < |StepWorld(w, m, c).recs| && StepWorld(w, m, c).recs[i].out.accepted
    ensures OffersAt(w, m, i, c)
  {
    if m.OnRecord? && m.i == i && i < |w.recs| && !Offers(w.recs[i], m.e) { QuietStep(w.recs[i], m.e); }
  }

  /** A record that ends up queued made an offer that was accepted. */
  lemma {:induction false} OfferFound(w: World, moves: seq<WorldMove>, c: Q.Config, i: nat)
    requires Inv(w) && (i < |w.recs| ==> !w.recs[i].out.accepted)
    requires i < |RunWorld(w, moves, c).recs| && RunWorld(w, moves, c).recs[i].out.accepted
    ensures exists j :: 0 <= j < |moves| && OffersAt(Before(w, moves, j, c), moves[j], i, c)
    decreases |moves|
  {
    var next := StepWorld(w, moves[0], c);
    MoveKeeps(w, moves[0], c);
    if i < |next.recs| && next.recs[i].out.accepted {
      AcceptedByOffer(w, moves[0], c, i);
      assert Before(w, moves, 0, c) == w;
    } else {
      OfferFound(next, moves[1..], c, i);
      var j :| 0 <= j < |moves[1..]| && OffersAt(Before(next, moves[1..], j, c), moves[1..][j], i, c);
      LaterMove(w, moves, j + 1, c);
      assert OffersAt(Before(w, moves, j + 1, c), moves[j + 1], i, c);
    }
  }

  // --- end to end ---

  /** Still to be delivered, or acknowledged by a move after the j-th. */
  ghost predicate Lasting(moves: seq<WorldMove>, c: Q.Config, i: nat, t: nat, info: Q.Info, j: nat) {
    || Delivers(RunWorld(START, moves, c), i, t, info)
    || exists k :: j < k < |moves| && AcksAt(Before(START, moves, k, c), moves[k], t)
  }

  /** The record's own completion, naming exactly its result, was stored by its offer and lasted from then on. */
  ghost predicate Stored(moves: seq<WorldMove>, c: Q.Config, i: nat, j: nat)
    requires j < |moves|
  {
    var before, w := Before(START, moves, j, c), RunWorld(START, moves, c);
    && i < |w.recs| && i in w.tickets && w.tickets[i] == before.queue.nextId
    && exists info :: SpeaksExactly(info, w.recs[i])
         && Delivers(StepWorld(before, moves[j], c), i, w.tickets[i], info)
         && Lasting(moves, c, i, w.tickets[i], info, j)
  }

  /** An earlier completion `x` of the same child, hash and parents stands for the record, delivered already or not. */
  ghost predicate Reused(moves: seq<WorldMove>, c: Q.Config, i: nat, j: nat, x: Q.Rec) {
    var w := RunWorld(START, moves, c);
    && i < |w.recs| && i in w.tickets && w.tickets[i] == x.id && Speaks(x.info, w.recs[i])
    && (x.delivery == Q.Acknowledged || Lasting(moves, c, i, x.id, x.info, j))
  }

  /** Move j is the offer of record i, and what became of it. */
  ghost predicate HandedOver(moves: seq<WorldMove>, c: Q.Config, i: nat, j: nat) {
    && j < |moves| && OffersAt(Before(START, moves, j, c), moves[j], i, c)
    && match Known(Before(START, moves, j, c), i, moves[j].now, c)
       case None => Stored(moves, c, i, j)
       case Some(x) => Reused(moves, c, i, j, x)
  }

  lemma StartInv()
    ensures Inv(START)
  {}

  /** What follows an accepted offer at move j. */
  lemma OfferLasts(moves: seq<WorldMove>, c: Q.Config, i: nat, j: nat)
    requires j < |moves| && OffersAt(Before(START, moves, j, c), moves[j], i, c)
    ensures HandedOver(moves, c, i, j)
  {
    var before := Before(START, moves, j, c);
    var m, after, later := moves[j], StepWorld(before, moves[j], c), moves[j + 1..];
    StartInv();
    RunKeeps(START, moves[..j], c);
    AcceptedIsDelivering(before, i, m.e, m.now, m.now', c);
    MoveKeeps(before, m, c);
    RunFrom(moves, c, j);
    QueuedStaysForGood(after, later, c, i);
    var t := after.tickets[i];
    var stored := Q.Get(after.queue, t).value;
    if stored.delivery != Q.Acknowledged {
      DeliversUntilAcked(after, later, c, i, t, stored.info);
      AckedLater(moves, c, i, j, t, stored.info);
    }
    var w := RunWorld(START, moves, c);
    assert Known(before, i, m.now, c).None? ==> SpeaksExactly(stored.info, w.recs[i]);
  }

  lemma {:induction false} RunFrom(moves: seq<WorldMove>, c: Q.Config, j: nat)
    requires j < |moves|
    ensures RunWorld(START, moves, c) == RunWorld(StepWorld(Before(START, moves, j, c), moves[j], c), moves[j + 1..], c)
  {
    assert moves == moves[..j] + moves[j..];
    RunSplits(START, moves[..j], moves[j..], c);
    assert moves[j..][1..] == moves[j + 1..];
  }

  /** Moves counted from the one after the j-th. */
  lemma AckedLater(moves: seq<WorldMove>, c: Q.Config, i: nat, j: nat, t: nat, info: Q.Info)
    requires j < |moves|
    requires var after := StepWorld(Before(START, moves, j, c), moves[j], c); var later := moves[j + 1..];
             Delivers(RunWorld(after, later, c), i, t, info) || AckedWithin(after, later, c, t)
    ensures Lasting(moves, c, i, t, info, j)
  {
    var after, later := StepWorld(Before(START, moves, j, c), moves[j], c), moves[j + 1..];
    RunFrom(moves, c, j);
    if !Delivers(RunWorld(after, later, c), i, t, info) {
      var k :| 0 <= k < |later| && AcksAt(Before(after, later, k, c), later[k], t);
      BeforeFrom(moves, c, j, k);
      assert AcksAt(Before(START, moves, j + 1 + k, c), moves[j + 1 + k], t);
    }
  }

  lemma {:induction false} BeforeFrom(moves: seq<WorldMove>, c: Q.Config, j: nat, k: nat)
    requires j + 1 + k <= |moves|
    ensures Before(START, moves, j + 1 + k, c)
         == Before(StepWorld(Before(START, moves, j, c), moves[j], c), moves[j + 1..], k, c)
  {
    var head := moves[..j + 1 + k];
    assert head[..j] == moves[..j] && head[j] == moves[j];
    assert head[j + 1..] == moves[j + 1..][..k];
    RunFrom(head, c, j);
  }

  /**
   * End to end, in every interleaving of any number of records with any queue traffic: a record the service marked
   * "queued" made one accepted offer. If the queue then held no completion for its child, its own completion, with
   * exactly its terminal state and hash, was stored and stays to be delivered until a move after the offer
   * acknowledges it. Otherwise it was matched with the completion held, which may have been acknowledged before.
   */
  lemma QueuedMeansDelivered(moves: seq<WorldMove>, c: Q.Config, i: nat)
    ensures var w := RunWorld(START, moves, c);
            i < |w.recs| && w.recs[i].out.accepted ==>
            && w.recs[i].out.result.Some? && w.recs[i].out.result.value.handoff == Queued
            && exists j :: HandedOver(moves, c, i, j)
  {
    var w := RunWorld(START, moves, c);
    if i < |w.recs| && w.recs[i].out.accepted {
      StartInv();
      RunKeeps(START, moves, c);
      assert L.Inv(w.recs[i]);
      OfferFound(START, moves, c, i);
      var j :| 0 <= j < |moves| && OffersAt(Before(START, moves, j, c), moves[j], i, c);
      OfferLasts(moves, c, i, j);
    }
  }
}
