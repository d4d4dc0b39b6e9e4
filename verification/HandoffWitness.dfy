/**
 * A run in which a record is marked queued with a completion that was acknowledged before and names another state. All
 * of the first life is read at 0, the second at 1, when a service with retention 0 has dropped the first record.
 */
module HandoffWitness {
  import opened Basics
  import opened JsText
  import opened LifecycleSteps
  import opened Handoff
  import Q = CompletionStore

  const WHO := Identity([1], Some([2]), None, None)
  const CONFIG := Q.Config(0, 0, 2)

  function Digest(): Text { seq(64, _ => 48) }

  function Surroundings(now: int): Env { Env(now, Digest(), true, true) }

  function Starts(now: int): Event { LaunchStarts(Surroundings(now)) }

  /** The adapter settles with a hash of its own. */
  function Settles(s: Q.TerminalState, now: int): Event {
    LaunchSettles(Completion(s, None, None, Some(Digest()), None), now, Surroundings(now), Surroundings(now))
  }

  function Started(now: int): Rec { Step(Launched(WHO), Starts(now)) }

  function Offered(s: Q.TerminalState, now: int): Q.Input {
    Q.Input(Some([2]), None, [1], None, s, None, Digest(), Some(now))
  }

  lemma OffersIt(s: Q.TerminalState, now: int)
    requires s == Q.Succeeded || s == Q.Failed
    ensures Offers(Started(now), Settles(s, now)) && Offer(Started(now), Settles(s, now)) == Offered(s, now)
    ensures var r := Step(Started(now), Answered(Settles(s, now), true));
            r.out.accepted && r.out.result.Some? && r.out.result.value.terminal == s && r.out.completedAt == Some(now)
  {}

  function Completed(): Q.Rec { Q.NewRecord(0, Offered(Q.Succeeded, 0), 0) }

  function Claimed(): Q.Rec { Q.Take(Completed(), [3], 0) }

  function Acknowledged(): Q.Rec { Claimed().(delivery := Q.Acknowledged, ackedAt := Some(1)) }

  lemma FirstEnqueue()
    ensures Q.Enqueue([], 0, Offered(Q.Succeeded, 0), 0, 0, CONFIG) == ([Completed()], Ok(Completed()))
  {
    assert Q.ValidInput(Offered(Q.Succeeded, 0));
    assert Q.Cleanup([], 0, CONFIG) == [] && Q.Squeeze([], CONFIG) == [];
    assert [] + [Completed()] == [Completed()];
  }

  lemma ClaimAndAcknowledge()
    ensures Q.ClaimLoop(Q.Cleanup([Completed()], 0, CONFIG), Q.Parent(Some([2]), None), [3], 1, 0, CONFIG)
         == ([Claimed()], [Q.Claim(0, [3], 1)])
    ensures Q.Acknowledge([Claimed()], Q.Claim(0, [3], 1), 1) == ([Acknowledged()], true)
  {
    var one := [Completed()];
    assert one[1..] == [];
    assert Q.Filter(one[1..], (r: Q.Rec) => Q.Fresh(r, 0 - CONFIG.retentionMs)) == [];
    assert Q.Cleanup(one, 0, CONFIG) == one;
    assert Q.ClaimLoop([], Q.Parent(Some([2]), None), [3], 0, 0, CONFIG) == ([], []);
    assert [Claimed()] + [] == [Claimed()] && [Q.Claim(0, [3], 1)] + [] == [Q.Claim(0, [3], 1)];
    assert [Claimed()][1..] == [] && [Acknowledged()] + [] == [Acknowledged()];
  }

  lemma SecondEnqueue(n: nat)
    ensures Q.Enqueue([Acknowledged()], n, Offered(Q.Failed, 1), 1, 1, CONFIG) == ([Acknowledged()], Ok(Acknowledged()))
  {
    var one := [Acknowledged()];
    assert Q.ValidInput(Offered(Q.Failed, 1));
    assert one[1..] == [];
    assert Q.Filter(one[1..], (r: Q.Rec) => Q.Fresh(r, 1 - CONFIG.retentionMs)) == [];
    assert Q.Cleanup(one, 1, CONFIG) == one;
  }

  /** The moves: a first life of the instance, its delivery, and a second life with the same hash. */
  function Moves(): seq<WorldMove> {
    [NewRecord(WHO), OnRecord(0, Starts(0), 0, 0), OnRecord(0, Settles(Q.Succeeded, 0), 0, 0),
     OnQueue(Q.OpClaim(Q.Parent(Some([2]), None), [3], 1, 0)), OnQueue(Q.OpAcknowledge(Q.Claim(0, [3], 1), 1)),
     NewRecord(WHO), OnRecord(1, Starts(1), 1, 1), OnRecord(1, Settles(Q.Failed, 1), 1, 1)]
  }

  function Then(w: World, k: nat): World
    requires k < 8
  {
    StepWorld(w, Moves()[k], CONFIG)
  }

  lemma RunsStepByStep()
    ensures RunWorld(START, Moves(), CONFIG)
         == Then(Then(Then(Then(Then(Then(Then(Then(START, 0), 1), 2), 3), 4), 5), 6), 7)
  {
    var m := Moves();
    Unroll(START, 0);
    Unroll(Then(START, 0), 1);
    Unroll(Then(Then(START, 0), 1), 2);
    Unroll(Then(Then(Then(START, 0), 1), 2), 3);
    Unroll(Then(Then(Then(Then(START, 0), 1), 2), 3), 4);
    Unroll(Then(Then(Then(Then(Then(START, 0), 1), 2), 3), 4), 5);
    Unroll(Then(Then(Then(Then(Then(Then(START, 0), 1), 2), 3), 4), 5), 6);
    Unroll(Then(Then(Then(Then(Then(Then(Then(START, 0), 1), 2), 3), 4), 5), 6), 7);
    assert m[0..] == m && m[8..] == [];
  }

  lemma Unroll(w: World, k: nat)
    requires k < 8
    ensures RunWorld(w, Moves()[k..], CONFIG) == RunWorld(Then(w, k), Moves()[k + 1..], CONFIG)
  {
    assert Moves()[k..][1..] == Moves()[k + 1..];
  }

  lemma FirstStart()
    ensures Then(Then(START, 0), 1).recs == [Started(0)] && Then(Then(START, 0), 1).queue == START.queue
  {
    assert Then(START, 0).recs == [Launched(WHO)];
  }

  lemma FirstLife(w: World)
    requires w.recs == [Started(0)] && w.queue == START.queue
    ensures Then(w, 2).queue == Q.Queue([Completed()], 1, {})
    ensures |Then(w, 2).recs| == 1 && Then(w, 2).recs[0].out.completedAt == Some(0)
  {
    OffersIt(Q.Succeeded, 0);
    FirstEnqueue();
    assert Moves()[2] == OnRecord(0, Settles(Q.Succeeded, 0), 0, 0);
  }

  lemma Delivered(w: World)
    requires w.queue == Q.Queue([Completed()], 1, {})
    ensures Then(Then(w, 3), 4).queue.records == [Acknowledged()] && Then(Then(w, 3), 4).recs == w.recs
  {
    ClaimAndAcknowledge();
    assert Then(w, 3).queue.records == [Claimed()];
  }

  lemma SecondLife(w: World)
    requires w.queue.records == [Acknowledged()] && |w.recs| == 1
    ensures var w' := Then(Then(Then(w, 5), 6), 7);
            && |w'.recs| == 2 && w'.recs[0] == w.recs[0] && w'.recs[1].out.accepted && w'.recs[1].out.result.Some?
            && w'.recs[1].out.result.value.terminal == Q.Failed
            && 1 in w'.tickets && w'.tickets[1] == 0 && Q.Get(w'.queue, 0) == Some(Acknowledged())
  {
    OffersIt(Q.Failed, 1);
    SecondEnqueue(w.queue.nextId);
    assert Then(w, 5).recs[1] == Launched(WHO);
    assert Then(Then(w, 5), 6).recs[1] == Started(1);
  }

  /**
   * Two lives of one instance with the same hash: the second is queued as FAILED, the completion held says SUCCEEDED.
   * The first completed at 0, so that at 1, with retention 0, launch accepts the instance id again.
   */
  lemma QueuedAsAnotherState()
    ensures var w := RunWorld(START, Moves(), CONFIG);
            && |w.recs| == 2 && w.recs[0].out.completedAt == Some(0)
            && w.recs[1].out.accepted && w.recs[1].out.result.Some?
            && w.recs[1].out.result.value.terminal == Q.Failed && 1 in w.tickets
            && var stored := Q.Get(w.queue, w.tickets[1]);
               stored.Some? && stored.value.delivery == Q.Acknowledged && stored.value.info.terminal == Q.Succeeded
  {
    RunsStepByStep();
    FirstStart();
    FirstLife(Then(Then(START, 0), 1));
    var w := Then(Then(Then(START, 0), 1), 2);
    Delivered(w);
    SecondLife(Then(Then(w, 3), 4));
  }
}
