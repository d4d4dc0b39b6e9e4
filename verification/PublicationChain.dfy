/** The catalog publications of one provider: a serialised chain, checked against the refresh generation. */
module PublicationChain {
  import opened Basics

  datatype Persist = Keep | Write | Delete

  /** A publication waits for its predecessor, writes the store, and ends: `Done(true)` ran its in-memory update. */
  datatype Phase = Waiting | Writing(mutated: bool) | Done(updated: bool)

  /** `previous` is the chain's tail when it was queued; `aborted` its signal. */
  datatype Pub = Pub(generation: nat, persist: Persist, previous: Option<nat>, aborted: bool, phase: Phase)

  /** An in-memory update as it ran: whose, and what the generation and signal were at that moment. */
  datatype Update = Update(pub: nat, generation: nat, current: nat, aborted: bool)

  /** The refresh in progress, named by its generation, and the refreshes whose controller was aborted. */
  datatype Controls = Controls(current: Option<nat>, aborted: set<nat>)

  /** `mutations` lists the generations whose store operation took effect, in order. */
  datatype Channel = Channel(
    generation: nat, controls: Controls, tail: Option<nat>, pubs: seq<Pub>, mutations: seq<nat>, updates: seq<Update>)

  const IDLE := Channel(0, Controls(None, {}), None, [], [], [])

  datatype Event =
    | Supersede
    | Refresh
    | RefreshEnds(generation: nat)
    | Publish(generation: nat, persist: Persist, aborted: bool)
    | Abort(i: nat)
    | Start(i: nat)
    | StoreMutates(i: nat)
    | StoreSettles(i: nat, ok: bool)
    | TailSettles(i: nat)

  predicate Settled(p: Pub) { p.phase.Done? }

  predicate Stale(c: Channel, p: Pub) { p.aborted || p.generation != c.generation }

  predicate Ready(c: Channel, i: nat)
    requires i < |c.pubs|
  {
    var p := c.pubs[i];
    p.phase == Waiting && (p.previous.Some? ==> p.previous.value < |c.pubs| && Settled(c.pubs[p.previous.value]))
  }

  function SetPhase(c: Channel, i: nat, phase: Phase): Channel
    requires i < |c.pubs|
  {
    c.(pubs := c.pubs[i := c.pubs[i].(phase := phase)])
  }

  /** The second check and, when it passes, the in-memory update, in one synchronous stretch. */
  function Conclude(c: Channel, i: nat): Channel
    requires i < |c.pubs|
  {
    var p := c.pubs[i];
    if Stale(c, p) then SetPhase(c, i, Done(false))
    else SetPhase(c, i, Done(true)).(updates := c.updates + [Update(i, p.generation, c.generation, p.aborted)])
  }

  /** The signal of every publication of that refresh is aborted. */
  function AbortAll(pubs: seq<Pub>, generation: nat): (r: seq<Pub>)
    ensures |r| == |pubs|
    ensures forall i :: 0 <= i < |r| ==>
              r[i] == pubs[i].(aborted := pubs[i].aborted || pubs[i].generation == generation)
  {
    seq(|pubs|, i requires 0 <= i < |pubs| => pubs[i].(aborted := pubs[i].aborted || pubs[i].generation == generation))
  }

  /** supersedeProviderRefresh: a new generation, and the controller of a refresh in progress is aborted. */
  function Superseded(c: Channel): Channel {
    var next := c.(generation := c.generation + 1);
    if c.controls.current.None? then next
    else
      var g := c.controls.current.value;
      next.(controls := Controls(None, c.controls.aborted + {g}), pubs := AbortAll(c.pubs, g))
  }

  function Step(c: Channel, e: Event): Channel {
    match e
    case Supersede => Superseded(c)
    case Refresh => Superseded(c).(controls := Superseded(c).controls.(current := Some(c.generation + 1)))
    case RefreshEnds(generation) =>
      if c.controls.current == Some(generation) then c.(controls := c.controls.(current := None)) else c
    case Publish(generation, persist, aborted) =>
      // a refresh only knows generations that were handed out
      if generation > c.generation then c
      else c.(pubs := c.pubs + [Pub(generation, persist, c.tail, aborted || generation in c.controls.aborted, Waiting)],
              tail := Some(|c.pubs|))
    case Abort(i) => if i < |c.pubs| then c.(pubs := c.pubs[i := c.pubs[i].(aborted := true)]) else c
    case Start(i) =>
      if i >= |c.pubs| || !Ready(c, i) then c
      else if Stale(c, c.pubs[i]) then SetPhase(c, i, Done(false))
      else if c.pubs[i].persist == Keep then Conclude(c, i)
      else SetPhase(c, i, Writing(false))
    case StoreMutates(i) =>
      if i < |c.pubs| && c.pubs[i].phase == Writing(false)
      then SetPhase(c, i, Writing(true)).(mutations := c.mutations + [c.pubs[i].generation])
      else c
    case StoreSettles(i, ok) =>
      if i >= |c.pubs| || !c.pubs[i].phase.Writing? then c
      else if ok then Conclude(c, i)
      else SetPhase(c, i, Done(false))
    case TailSettles(i) =>
      if i < |c.pubs| && Settled(c.pubs[i]) && c.tail == Some(i) then c.(tail := None) else c
  }

  function Run(c: Channel, events: seq<Event>): Channel
    decreases |events|
  {
    if events == [] then c else Run(Step(c, events[0]), events[1..])
  }

  // --- the chain ---

  /** Every publication before `i` has settled. */
  ghost predicate AllBefore(pubs: seq<Pub>, i: nat)
    requires i <= |pubs|
  {
    forall j :: 0 <= j < i ==> Settled(pubs[j])
  }

  /** Each publication is chained to the one before it, unless all before it had settled when it was queued. */
  ghost predicate Linked(pubs: seq<Pub>, i: nat)
    requires i < |pubs|
  {
    && (pubs[i].previous == None || (i > 0 && pubs[i].previous == Some(i - 1)))
    && (pubs[i].previous == None ==> AllBefore(pubs, i))
    && (pubs[i].phase != Waiting ==> AllBefore(pubs, i))
  }

  ghost predicate Chained(c: Channel) {
    && (forall i :: 0 <= i < |c.pubs| ==> Linked(c.pubs, i))
    && (c.tail == None ==> AllBefore(c.pubs, |c.pubs|))
    && (c.tail.Some? ==> c.tail.value + 1 == |c.pubs|)
  }

  ghost predicate Sorted(s: seq<nat>) {
    forall i, j :: 0 <= i < j < |s| ==> s[i] <= s[j]
  }

  /** Store mutations came in generation order, and a publication writing now may still follow them. */
  ghost predicate InOrder(c: Channel) {
    && Sorted(c.mutations)
    && (forall k :: 0 <= k < |c.mutations| ==> c.mutations[k] <= c.generation)
    && (forall i :: 0 <= i < |c.pubs| ==> c.pubs[i].generation <= c.generation)
    && (forall i, k :: 0 <= i < |c.pubs| && c.pubs[i].phase.Writing? && 0 <= k < |c.mutations| ==>
          c.mutations[k] <= c.pubs[i].generation)
  }

  /** Updates ran in generation order, for the generation then current, with a live signal. */
  ghost predicate Fresh(c: Channel) {
    && (forall k :: 0 <= k < |c.updates| ==>
          c.updates[k].generation == c.updates[k].current <= c.generation && !c.updates[k].aborted)
    && (forall k, l :: 0 <= k < l < |c.updates| ==> c.updates[k].generation <= c.updates[l].generation)
  }

  /** Updates ran in the order of the chain, once for each publication that reports success. */
  ghost predicate Served(c: Channel) {
    && (forall k :: 0 <= k < |c.updates| ==>
                      c.updates[k].pub < |c.pubs| && c.pubs[c.updates[k].pub].phase == Done(true))
    && (forall k, l :: 0 <= k < l < |c.updates| ==> c.updates[k].pub < c.updates[l].pub)
    && (forall i :: 0 <= i < |c.pubs| && c.pubs[i].phase == Done(true) ==> HasUpdate(c, i))
  }

  ghost predicate HasUpdate(c: Channel, i: nat) {
    exists k :: 0 <= k < |c.updates| && c.updates[k].pub == i
  }

  /** A refresh in progress is of the current generation; of an aborted one every publication is aborted. */
  ghost predicate Signalled(c: Channel) {
    && (c.controls.current.Some? ==> c.controls.current.value == c.generation && c.generation !in c.controls.aborted)
    && (forall g :: g in c.controls.aborted ==> g < c.generation)
    && (forall i :: 0 <= i < |c.pubs| && c.pubs[i].generation in c.controls.aborted ==> c.pubs[i].aborted)
  }

  ghost predicate Inv(c: Channel) { Chained(c) && InOrder(c) && Fresh(c) && Served(c) && Signalled(c) }

  /** Only signals differ. */
  ghost predicate SamePhases(c: Channel, d: Channel) {
    && c.tail == d.tail && |c.pubs| == |d.pubs| && c.mutations == d.mutations && c.updates == d.updates
    && c.generation <= d.generation
    && forall i :: 0 <= i < |c.pubs| ==>
         && c.pubs[i].generation == d.pubs[i].generation && c.pubs[i].previous == d.pubs[i].previous
         && c.pubs[i].phase == d.pubs[i].phase
  }

  lemma SamePhasesChained(c: Channel, d: Channel)
    requires Chained(c) && SamePhases(c, d)
    ensures Chained(d)
  {
    forall i | 0 <= i < |d.pubs| ensures Linked(d.pubs, i) { assert Linked(c.pubs, i); }
  }

  lemma SupersededPhases(c: Channel)
    ensures SamePhases(c, Superseded(c)) && SamePhases(c, Step(c, Refresh))
  {}

  /** A running publication may change its own phase or signal without disturbing the chain. */
  lemma PhaseChained(c: Channel, i: nat, p: Pub)
    requires Chained(c) && i < |c.pubs| && p.previous == c.pubs[i].previous
    requires Settled(c.pubs[i]) ==> Settled(p)
    requires p.phase != Waiting ==> AllBefore(c.pubs, i)
    ensures Chained(c.(pubs := c.pubs[i := p]))
  {
    var pubs := c.pubs[i := p];
    forall k | 0 <= k < |pubs| ensures Linked(pubs, k) {
      assert Linked(c.pubs, k);
    }
  }

  /** A publication may start only when every earlier one has settled. */
  lemma ReadyMeansAlone(c: Channel, i: nat)
    requires Chained(c) && i < |c.pubs| && Ready(c, i)
    ensures AllBefore(c.pubs, i)
  {
    assert Linked(c.pubs, i);
    if c.pubs[i].previous.Some? { assert Linked(c.pubs, i - 1); }
  }

  lemma ChainKept(c: Channel, e: Event)
    requires Chained(c)
    ensures Chained(Step(c, e))
  {
    match e
    case Publish(generation, persist, aborted) =>
      if generation <= c.generation {
        var c' := Step(c, e);
        forall k | 0 <= k < |c'.pubs| ensures Linked(c'.pubs, k) {
          if k < |c.pubs| { assert Linked(c.pubs, k); }
        }
      }
    case Abort(i) => if i < |c.pubs| { assert Linked(c.pubs, i); PhaseChained(c, i, c.pubs[i].(aborted := true)); }
    case Start(i) =>
      if i < |c.pubs| && Ready(c, i) {
        ReadyMeansAlone(c, i);
        PhaseChained(c, i, Step(c, e).pubs[i]);
      }
    case StoreMutates(i) =>
      if i < |c.pubs| { assert Linked(c.pubs, i); PhaseChained(c, i, Step(c, e).pubs[i]); }
    case StoreSettles(i, ok) =>
      if i < |c.pubs| { assert Linked(c.pubs, i); PhaseChained(c, i, Step(c, e).pubs[i]); }
    case TailSettles(i) =>
      if i < |c.pubs| && Settled(c.pubs[i]) && c.tail == Some(i) { assert Linked(c.pubs, i); }
    case Supersede => SupersededPhases(c); SamePhasesChained(c, Step(c, e));
    case Refresh => SupersededPhases(c); SamePhasesChained(c, Step(c, e));
    case RefreshEnds(_) => SamePhasesChained(c, Step(c, e));
  }

  /** At most one publication body runs at a time. */
  lemma BodiesNeverOverlap(c: Channel, i: nat, j: nat)
    requires Chained(c) && i < |c.pubs| && j < |c.pubs| && c.pubs[i].phase.Writing? && c.pubs[j].phase.Writing?
    ensures i == j
  {
    assert Linked(c.pubs, i) && Linked(c.pubs, j);
  }

  lemma SamePhasesOrder(c: Channel, d: Channel)
    requires InOrder(c) && SamePhases(c, d)
    ensures InOrder(d)
  {}

  /** The store operation of publication `i` takes effect. */
  lemma MutationOrder(c: Channel, i: nat)
    requires Chained(c) && InOrder(c) && i < |c.pubs| && c.pubs[i].phase == Writing(false)
    ensures InOrder(SetPhase(c, i, Writing(true)).(mutations := c.mutations + [c.pubs[i].generation]))
  {
    var c' := SetPhase(c, i, Writing(true)).(mutations := c.mutations + [c.pubs[i].generation]);
    forall j, k | 0 <= j < |c'.pubs| && c'.pubs[j].phase.Writing? && 0 <= k < |c'.mutations|
      ensures c'.mutations[k] <= c'.pubs[j].generation
    {
      BodiesNeverOverlap(c, i, j);
    }
  }

  /** A publication changes its phase; one that begins to write is of the current generation. */
  lemma PhaseOrder(c: Channel, i: nat, p: Pub)
    requires InOrder(c) && i < |c.pubs| && p.generation == c.pubs[i].generation
    requires p.phase.Writing? ==> c.pubs[i].phase.Writing? || p.generation == c.generation
    ensures InOrder(c.(pubs := c.pubs[i := p]))
  {}

  lemma OrderKept(c: Channel, e: Event)
    requires Chained(c) && InOrder(c)
    ensures InOrder(Step(c, e))
  {
    match e
    case StoreMutates(i) => if i < |c.pubs| && c.pubs[i].phase == Writing(false) { MutationOrder(c, i); }
    case Supersede => SupersededPhases(c); SamePhasesOrder(c, Step(c, e));
    case Refresh => SupersededPhases(c); SamePhasesOrder(c, Step(c, e));
    case RefreshEnds(_) => SamePhasesOrder(c, Step(c, e));
    case Publish(_, _, _) =>
    case TailSettles(_) =>
    case Abort(i) => if i < |c.pubs| { PhaseOrder(c, i, Step(c, e).pubs[i]); }
    case Start(i) => if i < |c.pubs| { PhaseOrder(c, i, Step(c, e).pubs[i]); }
    case StoreSettles(i, ok) => if i < |c.pubs| { PhaseOrder(c, i, Step(c, e).pubs[i]); }
  }

  lemma FreshKept(c: Channel, e: Event)
    requires InOrder(c) && Fresh(c)
    ensures Fresh(Step(c, e))
  {}

  lemma ConcludeServed(c: Channel, i: nat)
    requires Chained(c) && Served(c) && i < |c.pubs| && !Settled(c.pubs[i])
    ensures Served(Conclude(c, i))
  {
    var c' := Conclude(c, i);
    forall k | 0 <= k < |c.updates| ensures c.updates[k].pub < i {
      var j := c.updates[k].pub;
      assert Linked(c.pubs, j);
    }
    forall j | 0 <= j < |c'.pubs| && c'.pubs[j].phase == Done(true) ensures HasUpdate(c', j) {
      if j == i {
        assert c'.updates[|c.updates|].pub == i;
      } else {
        assert HasUpdate(c, j);
        var k :| 0 <= k < |c.updates| && c.updates[k].pub == j;
        assert c'.updates[k].pub == j;
      }
    }
  }

  lemma SameUpdates(c: Channel, c': Channel)
    requires Served(c) && c'.updates == c.updates && |c.pubs| <= |c'.pubs|
    requires forall i :: 0 <= i < |c.pubs| ==> (c'.pubs[i].phase == Done(true) <==> c.pubs[i].phase == Done(true))
    requires forall i :: |c.pubs| <= i < |c'.pubs| ==> c'.pubs[i].phase == Waiting
    ensures Served(c')
  {
    forall i | 0 <= i < |c'.pubs| && c'.pubs[i].phase == Done(true) ensures HasUpdate(c', i) {
      assert HasUpdate(c, i);
    }
  }

  lemma ServedKept(c: Channel, e: Event)
    requires Chained(c) && Served(c)
    ensures Served(Step(c, e))
  {
    if e.Start? && e.i < |c.pubs| && Ready(c, e.i) && !Stale(c, c.pubs[e.i]) && c.pubs[e.i].persist == Keep {
      ConcludeServed(c, e.i);
    } else if e.StoreSettles? && e.i < |c.pubs| && c.pubs[e.i].phase.Writing? && e.ok {
      ConcludeServed(c, e.i);
    } else {
      SameUpdates(c, Step(c, e));
    }
  }

  lemma SignalsKept(c: Channel, e: Event)
    requires Signalled(c)
    ensures Signalled(Step(c, e))
  {}

  lemma StepKeeps(c: Channel, e: Event)
    requires Inv(c)
    ensures Inv(Step(c, e))
  {
    ServedKept(c, e);
    ChainKept(c, e);
    OrderKept(c, e);
    FreshKept(c, e);
    SignalsKept(c, e);
  }

  /** Over every run of one provider. */
  lemma {:induction false} RunKeeps(c: Channel, events: seq<Event>)
    requires Inv(c)
    ensures Inv(Run(c, events))
    decreases |events|
  {
    if events != [] {
      StepKeeps(c, events[0]);
      RunKeeps(Step(c, events[0]), events[1..]);
    }
  }

  /**
   * Publication order from an idle provider: bodies apart, store mutations in generation order, updates never stale.
   */
  lemma PublicationOrder(events: seq<Event>)
    ensures var c := Run(IDLE, events);
            && Sorted(c.mutations)
            && (forall i, j :: 0 <= i < j < |c.pubs| && c.pubs[j].phase != Waiting ==> Settled(c.pubs[i]))
            && (forall k :: 0 <= k < |c.updates| ==>
                  c.updates[k].generation == c.updates[k].current && !c.updates[k].aborted)
            && (forall i :: 0 <= i < |c.pubs| && c.pubs[i].phase == Done(true) ==> HasUpdate(c, i))
            && (forall k, l :: 0 <= k < l < |c.updates| ==> c.updates[k].pub < c.updates[l].pub)
  {
    RunKeeps(IDLE, events);
    var c := Run(IDLE, events);
    forall i, j | 0 <= i < j < |c.pubs| && c.pubs[j].phase != Waiting ensures Settled(c.pubs[i]) {
      assert Linked(c.pubs, j);
    }
  }

  /**
   * Superseding a refresh in progress aborts it: every publication of it, queued then or later, carries an aborted
   * signal.
   */
  lemma SupersedingAborts(c: Channel, events: seq<Event>, g: nat, i: nat)
    requires Inv(c) && c.controls.current == Some(g)
    ensures var c' := Run(Step(c, Supersede), events);
            i < |c'.pubs| && c'.pubs[i].generation == g ==> c'.pubs[i].aborted
  {
    StepKeeps(c, Supersede);
    RunKeeps(Step(c, Supersede), events);
    AbortedStays(Step(c, Supersede), events, g);
  }

  lemma {:induction false} AbortedStays(c: Channel, events: seq<Event>, g: nat)
    requires g in c.controls.aborted
    ensures g in Run(c, events).controls.aborted
    decreases |events|
  {
    if events != [] { AbortedStays(Step(c, events[0]), events[1..], g); }
  }

  lemma StepUpdates(c: Channel, e: Event)
    requires Inv(c)
    ensures var c' := Step(c, e);
            && c.generation <= c'.generation && c.updates <= c'.updates
            && forall k :: |c.updates| <= k < |c'.updates| ==> c'.updates[k].generation >= c.generation
  {}

  /** Once a generation is superseded, at any point of any publication, none of its updates runs any more. */
  lemma {:induction false} SupersededNeverUpdates(c: Channel, events: seq<Event>)
    requires Inv(c)
    ensures var c' := Run(c, events);
            && c.generation <= c'.generation && c.updates <= c'.updates
            && forall k :: |c.updates| <= k < |c'.updates| ==> c'.updates[k].generation >= c.generation
    decreases |events|
  {
    if events != [] {
      StepKeeps(c, events[0]);
      StepUpdates(c, events[0]);
      SupersededNeverUpdates(Step(c, events[0]), events[1..]);
    }
  }
}
