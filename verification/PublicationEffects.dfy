/** What each step does to the publications of a provider, and that a current publication gets through. */
module PublicationEffects {
  import opened Basics
  import opened PublicationChain

  /** The refresh of the publication is the current one and nobody aborted it. */
  predicate Current(c: Channel, i: nat)
    requires i < |c.pubs|
  {
    !c.pubs[i].aborted && c.pubs[i].generation == c.generation
  }

  /** Its turn has come: nothing was queued before it, or what was has ended. */
  predicate ItsTurn(c: Channel, i: nat)
    requires i < |c.pubs|
  {
    c.pubs[i].previous.None? || (c.pubs[i].previous.value < |c.pubs| && c.pubs[c.pubs[i].previous.value].phase.Done?)
  }

  /** Where the publication stands after the event. */
  function PhaseAfter(c: Channel, e: Event, i: nat): Phase
    requires i < |c.pubs|
  {
    var p := c.pubs[i];
    match e
    case Start(j) =>
      if j != i || !p.phase.Waiting? || !ItsTurn(c, i) then p.phase
      else if !Current(c, i) then Done(false)
      else if p.persist == Keep then Done(true)
      else Writing(false)
    case StoreMutates(j) => if j == i && p.phase == Writing(false) then Writing(true) else p.phase
    case StoreSettles(j, ok) => if j == i && p.phase.Writing? then Done(ok && Current(c, i)) else p.phase
    case _ => p.phase
  }

  /** A new generation begins, and the refresh in progress loses its signal. */
  predicate Supersedes(e: Event) { e == Supersede || e == Refresh }

  predicate AbortedAfter(c: Channel, e: Event, i: nat)
    requires i < |c.pubs|
  {
    || c.pubs[i].aborted || e == Abort(i)
    || (Supersedes(e) && c.controls.current == Some(c.pubs[i].generation))
  }

  /** Every publication goes where `PhaseAfter` says and keeps what it is; its update runs exactly when it succeeds. */
  lemma StepMovesPublications(c: Channel, e: Event, i: nat)
    requires i < |c.pubs|
    ensures var c' := Step(c, e); var p := c.pubs[i];
            && i < |c'.pubs|
            && c'.pubs[i] == Pub(p.generation, p.persist, p.previous, AbortedAfter(c, e, i), PhaseAfter(c, e, i))
  {}

  /** The publication an event is about, if it is about one. */
  function About(e: Event): Option<nat> {
    match e
    case Start(i) => Some(i)
    case StoreMutates(i) => Some(i)
    case StoreSettles(i, _) => Some(i)
    case _ => None
  }

  /** The in-memory update runs exactly when a publication reaches Done(true), the store changes when it is written. */
  lemma StepUpdatesOnSuccess(c: Channel, e: Event)
    ensures var c' := Step(c, e);
            && c'.updates == c.updates + (
                 if About(e).Some? && About(e).value < |c.pubs| && var i := About(e).value;
                    !c.pubs[i].phase.Done? && PhaseAfter(c, e, i) == Done(true)
                 then [Update(About(e).value, c.generation, c.generation, false)] else [])
            && c'.mutations == c.mutations + (
                 if e.StoreMutates? && e.i < |c.pubs| && c.pubs[e.i].phase == Writing(false)
                 then [c.pubs[e.i].generation] else [])
  {}

  /** What an event does to the generation, the refresh in progress and the chain. */
  lemma StepMovesChain(c: Channel, e: Event)
    ensures var c' := Step(c, e);
            && c'.generation == c.generation + (if Supersedes(e) then 1 else 0)
            && c'.controls.current == (if e == Refresh then Some(c.generation + 1)
                                       else if e == Supersede || c.controls.current == Ends(e) then None
                                       else c.controls.current)
            && c'.controls.aborted == c.controls.aborted
               + (if Supersedes(e) && c.controls.current.Some? then {c.controls.current.value} else {})
            && (if e.Publish? && e.generation <= c.generation
                then && c'.pubs[..|c'.pubs| - 1] == c.pubs && c'.tail == Some(|c.pubs|)
                     && c'.pubs[|c'.pubs| - 1] == Pub(e.generation, e.persist, c.tail,
                                                      e.aborted || e.generation in c.controls.aborted, Waiting)
                else |c'.pubs| == |c.pubs|
                     && c'.tail == if e.TailSettles? && c.tail == Some(e.i) && e.i < |c.pubs| && c.pubs[e.i].phase.Done?
                                   then None else c.tail)
  {}

  function Ends(e: Event): Option<nat> { if e.RefreshEnds? then Some(e.generation) else None }

  // --- getting through ---

  /** The event neither supersedes the refresh nor concerns publication `i`, unless its store operation takes effect. */
  predicate Apart(e: Event, i: nat) {
    !Supersedes(e) && e != Abort(i) && (About(e) == Some(i) ==> e == StoreMutates(i))
  }

  ghost predicate WritesOn(c: Channel, i: nat) { i < |c.pubs| && c.pubs[i].phase.Writing? && Current(c, i) }

  lemma {:induction false} WritesUndisturbed(c: Channel, between: seq<Event>, i: nat)
    requires WritesOn(c, i) && forall e :: e in between ==> Apart(e, i)
    ensures WritesOn(Run(c, between), i)
    decreases |between|
  {
    if between != [] {
      assert Apart(between[0], i);
      StepMovesPublications(c, between[0], i);
      StepMovesChain(c, between[0]);
      WritesUndisturbed(Step(c, between[0]), between[1..], i);
    }
  }

  lemma {:induction false} RunSplits(c: Channel, a: seq<Event>, b: seq<Event>)
    ensures Run(c, a + b) == Run(Run(c, a), b)
    decreases |a|
  {
    if a == [] {
      assert a + b == b;
    } else {
      assert (a + b)[1..] == a[1..] + b;
      RunSplits(Step(c, a[0]), a[1..], b);
    }
  }

  lemma RunOne(c: Channel, e: Event)
    ensures Run(c, [e]) == Step(c, e)
  {
    assert [e][1..] == [];
  }

  /** The publication succeeded and its update was the last to run. */
  ghost predicate Published(c: Channel, i: nat) {
    && i < |c.pubs| && c.pubs[i].phase == Done(true)
    && c.updates != [] && c.updates[|c.updates| - 1] == Update(i, c.generation, c.generation, false)
  }

  /**
   * A publication of the current refresh whose turn has come gets through: with nothing to store at once, else when
   * its store operation succeeds, whatever else happens meanwhile but a newer refresh or an abort.
   */
  lemma CurrentGetsThrough(c: Channel, between: seq<Event>, i: nat)
    requires i < |c.pubs| && c.pubs[i].phase.Waiting? && ItsTurn(c, i) && Current(c, i)
    requires forall e :: e in between ==> Apart(e, i)
    ensures if c.pubs[i].persist == Keep then Published(Step(c, Start(i)), i)
            else Published(Run(Step(c, Start(i)), between + [StoreSettles(i, true)]), i)
  {
    var d := Step(c, Start(i));
    StepMovesPublications(c, Start(i), i);
    StepMovesChain(c, Start(i));
    StepUpdatesOnSuccess(c, Start(i));
    if c.pubs[i].persist != Keep {
      WritesUndisturbed(d, between, i);
      var w, e := Run(d, between), StoreSettles(i, true);
      RunSplits(d, between, [e]);
      RunOne(w, e);
      StepMovesPublications(w, e, i);
      StepMovesChain(w, e);
      StepUpdatesOnSuccess(w, e);
    }
  }
}
