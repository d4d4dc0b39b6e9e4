/** The refresh maps of the model catalog, all providers together, proved against PublicationChain. */
module ModelsRefresh {
  import opened Basics
  import opened JsText
  import opened PublicationChain

  class ModelsImpl {
    var refreshGenerations: map<Text, nat>
    /** Controllers are named by the generation of their refresh; `aborted` holds those that were aborted. */
    var refreshControllers: map<Text, nat>
    var aborted: map<Text, set<nat>>
    var publicationChains: map<Text, nat>
    /** The publications queued so far; in the source each is a suspended async body. */
    var publications: map<Text, seq<Pub>>
    ghost var mutations: map<Text, seq<nat>>
    ghost var updates: map<Text, seq<Update>>

    ghost function View(provider: Text): Channel
      reads this
    {
      Channel(
        if provider in refreshGenerations then refreshGenerations[provider] else 0,
        Controls(if provider in refreshControllers then Some(refreshControllers[provider]) else None,
                 if provider in aborted then aborted[provider] else {}),
        if provider in publicationChains then Some(publicationChains[provider]) else None,
        if provider in publications then publications[provider] else [],
        if provider in mutations then mutations[provider] else [],
        if provider in updates then updates[provider] else [])
    }

    /** The step of one provider; the others do not notice it. */
    twostate predicate Stepped(provider: Text, e: Event)
      reads this
    {
      && View(provider) == Step(old(View(provider)), e)
      && forall other :: other != provider ==> View(other) == old(View(other))
    }

    constructor ()
      ensures forall provider :: View(provider) == IDLE
    {
      refreshGenerations, refreshControllers, aborted := map[], map[], map[];
      publicationChains, publications, mutations, updates := map[], map[], map[], map[];
    }

    method SupersedeProviderRefresh(provider: Text) returns (generation: nat)
      modifies this
      ensures Stepped(provider, Supersede) && generation == View(provider).generation
    {
      generation := (if provider in refreshGenerations then refreshGenerations[provider] else 0) + 1;
      refreshGenerations := refreshGenerations[provider := generation];
      if provider in refreshControllers { AbortController(provider); }
    }

    /** The previous controller is forgotten and aborted. */
    method AbortController(provider: Text)
      requires provider in refreshControllers
      modifies `refreshControllers, `aborted, `publications
      ensures var c := old(View(provider)); var g := old(refreshControllers[provider]);
              View(provider) == c.(controls := Controls(None, c.controls.aborted + {g}), pubs := AbortAll(c.pubs, g))
      ensures forall other :: other != provider ==> View(other) == old(View(other))
    {
      var previous := refreshControllers[provider];
      refreshControllers := refreshControllers - {provider};
      aborted := aborted[provider := (if provider in aborted then aborted[provider] else {}) + {previous}];
      AbortPublications(provider, previous);
    }

    /** The publications of that refresh find their signal aborted. */
    method AbortPublications(provider: Text, generation: nat)
      modifies `publications
      ensures View(provider) == old(View(provider)).(pubs := AbortAll(old(View(provider)).pubs, generation))
      ensures forall other :: other != provider ==> View(other) == old(View(other))
    {
      if provider in publications {
        publications := publications[provider := AbortAll(publications[provider], generation)];
      }
    }

    method BeginProviderRefresh(provider: Text) returns (generation: nat)
      modifies this
      ensures Stepped(provider, Refresh) && generation == View(provider).generation
    {
      generation := SupersedeProviderRefresh(provider);
      SetController(provider, generation);
    }

    method SetController(provider: Text, generation: nat)
      modifies `refreshControllers
      ensures var c := old(View(provider));
              View(provider) == c.(controls := c.controls.(current := Some(generation)))
      ensures forall other :: other != provider ==> View(other) == old(View(other))
    {
      refreshControllers := refreshControllers[provider := generation];
    }

    /** The finally clause of a refresh. */
    method EndRefresh(provider: Text, generation: nat)
      modifies `refreshControllers
      ensures Stepped(provider, RefreshEnds(generation))
    {
      if provider in refreshControllers && refreshControllers[provider] == generation {
        refreshControllers := refreshControllers - {provider};
      }
    }

    /** publishProviderModels up to its first await: join the chain. */
    method QueuePublication(provider: Text, generation: nat, persist: Persist, callerAborted: bool) returns (i: nat)
      requires generation <= View(provider).generation
      modifies this
      ensures Stepped(provider, Publish(generation, persist, callerAborted)) && i + 1 == |View(provider).pubs|
    {
      var previous := if provider in publicationChains then Some(publicationChains[provider]) else None;
      var pubs := if provider in publications then publications[provider] else [];
      i := |pubs|;
      var stopped := callerAborted || (provider in aborted && generation in aborted[provider]);
      publications := publications[provider := pubs + [Pub(generation, persist, previous, stopped, Waiting)]];
      publicationChains := publicationChains[provider := i];
    }

    method SetPhaseOf(provider: Text, i: nat, phase: Phase)
      requires provider in publications && i < |publications[provider]|
      modifies this`publications
      ensures View(provider) == SetPhase(old(View(provider)), i, phase)
      ensures forall other :: other != provider ==> View(other) == old(View(other))
    {
      var p := publications[provider][i];
      publications := publications[provider := publications[provider][i := p.(phase := phase)]];
    }

    /** The check after the store operation, with the in-memory update behind it. */
    method ConcludePublication(provider: Text, i: nat)
      requires provider in publications && i < |publications[provider]|
      modifies this`publications, this`updates
      ensures View(provider) == Conclude(old(View(provider)), i)
      ensures forall other :: other != provider ==> View(other) == old(View(other))
    {
      var p := publications[provider][i];
      var current := if provider in refreshGenerations then refreshGenerations[provider] else 0;
      if p.aborted || current != p.generation {
        SetPhaseOf(provider, i, Done(false));
        return;
      }
      ghost var done := if provider in updates then updates[provider] else [];
      updates := updates[provider := done + [Update(i, p.generation, current, p.aborted)]];
      SetPhaseOf(provider, i, Done(true));
    }

    /** The publication body from the settlement of its predecessor to the store operation, or to its end. */
    method StartPublication(provider: Text, i: nat)
      requires i < |View(provider).pubs| && Ready(View(provider), i)
      modifies this
      ensures Stepped(provider, Start(i))
    {
      var p := publications[provider][i];
      var current := if provider in refreshGenerations then refreshGenerations[provider] else 0;
      if p.aborted || current != p.generation {
        SetPhaseOf(provider, i, Done(false));
      } else if p.persist == Keep {
        ConcludePublication(provider, i);
      } else {
        SetPhaseOf(provider, i, Writing(false));
      }
    }

    /** The store operation resolved or rejected. */
    method OnStoreSettled(provider: Text, i: nat, ok: bool)
      requires i < |View(provider).pubs| && View(provider).pubs[i].phase.Writing?
      modifies this
      ensures Stepped(provider, StoreSettles(i, ok))
    {
      if ok { ConcludePublication(provider, i); } else { SetPhaseOf(provider, i, Done(false)); }
    }

    /** The reaction queued on the tail: forget the chain when nothing was queued behind it. */
    method OnTailSettled(provider: Text, i: nat)
      requires i < |View(provider).pubs| && Settled(View(provider).pubs[i])
      modifies this
      ensures Stepped(provider, TailSettles(i))
    {
      if provider in publicationChains && publicationChains[provider] == i {
        publicationChains := publicationChains - {provider};
      }
    }
  }
}
