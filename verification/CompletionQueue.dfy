/** The completion queue object over its persisted records, proved against CompletionStore. */
module CompletionQueue {
  import opened Basics
  import opened CompletionStore
  import opened CompletionEffects

  /** The claiming loop has handled `kept[..i]`: `rs` and `claims` plus the recursion on the rest is the result. */
  ghost predicate ClaimProgress(
    kept: seq<Rec>, i: nat, rs: seq<Rec>, claims: seq<Claim>,
    parent: Parent, owner: Identity, limit: nat, now: int, c: Config)
  {
    && i <= |kept| == |rs| && rs[i..] == kept[i..] && |claims| <= limit
    && var (rest, more) := ClaimLoop(kept[i..], parent, owner, limit - |claims|, now, c);
       ClaimLoop(kept, parent, owner, limit, now, c) == (rs[..i] + rest, claims + more)
  }

  lemma ClaimStart(kept: seq<Rec>, parent: Parent, owner: Identity, limit: nat, now: int, c: Config)
    ensures ClaimProgress(kept, 0, kept, [], parent, owner, limit, now, c)
  {
    var (rest, more) := ClaimLoop(kept, parent, owner, limit, now, c);
    assert kept[0..] == kept && kept[..0] + rest == rest && [] + more == more;
  }

  lemma ClaimEnd(
    kept: seq<Rec>, rs: seq<Rec>, claims: seq<Claim>, parent: Parent, owner: Identity, limit: nat, now: int, c: Config)
    requires ClaimProgress(kept, |kept|, rs, claims, parent, owner, limit, now, c)
    ensures ClaimLoop(kept, parent, owner, limit, now, c) == (rs, claims)
    ensures claims == [] ==> rs == kept
  {
    assert rs[..|rs|] + [] == rs && claims + [] == claims;
    NoClaims(kept, parent, owner, limit, now, c);
  }

  /** A loop that claims nothing changes nothing, so it need not save. */
  lemma {:induction false} NoClaims(rs: seq<Rec>, parent: Parent, owner: Identity, room: nat, now: int, c: Config)
    ensures ClaimLoop(rs, parent, owner, room, now, c).1 == [] ==> ClaimLoop(rs, parent, owner, room, now, c).0 == rs
  {
    if rs != [] && !(room > 0 && Claimable(rs[0], parent, owner, now, c)) {
      NoClaims(rs[1..], parent, owner, room, now, c);
    }
  }

  lemma ClaimStep(
    kept: seq<Rec>, i: nat, rs: seq<Rec>, claims: seq<Claim>,
    parent: Parent, owner: Identity, limit: nat, now: int, c: Config)
    requires ClaimProgress(kept, i, rs, claims, parent, owner, limit, now, c) && i < |kept|
    ensures var r := rs[i];
            if |claims| < limit && Claimable(r, parent, owner, now, c)
            then ClaimProgress(kept, i + 1, rs[i := Take(r, owner, now)], claims + [ClaimOf(r, owner)],
                               parent, owner, limit, now, c)
            else ClaimProgress(kept, i + 1, rs, claims, parent, owner, limit, now, c)
  {
    var r := rs[i];
    assert r == kept[i] by { assert rs[i..][0] == kept[i..][0]; }
    assert kept[i..][0] == r && kept[i..][1..] == kept[i + 1..];
    assert rs[i + 1..] == kept[i + 1..] by { assert rs[i..][1..] == kept[i..][1..]; }
    var took := |claims| < limit && Claimable(r, parent, owner, now, c);
    var room := limit - |claims|;
    var (rest, more) := ClaimLoop(kept[i + 1..], parent, owner, if took then room - 1 else room, now, c);
    var r' := if took then Take(r, owner, now) else r;
    Assoc(rs[..i], [r'], rest);
    Assoc(claims, [ClaimOf(r, owner)], more);
    assert rs[i := r'][..i + 1] == rs[..i] + [r'];
    assert rs[i := r] == rs && rs[i := r'][i + 1..] == rs[i + 1..];
  }

  /** The loop of `claim`, over the records that survived the cleanup. */
  method ClaimRecords(kept: seq<Rec>, parent: Parent, owner: Identity, limit: nat, now: int, c: Config)
    returns (rs: seq<Rec>, claims: seq<Claim>)
    ensures (rs, claims) == ClaimLoop(kept, parent, owner, limit, now, c)
    ensures claims == Handed(First(Eligible(kept, parent, owner, now, c), limit), owner)
    ensures |claims| <= limit && (claims == [] ==> rs == kept)
  {
    rs, claims := kept, [];
    ClaimStart(kept, parent, owner, limit, now, c);
    for i := 0 to |kept|
      invariant ClaimProgress(kept, i, rs, claims, parent, owner, limit, now, c)
    {
      var r := rs[i];
      ClaimStep(kept, i, rs, claims, parent, owner, limit, now, c);
      if |claims| >= limit || !MatchesParent(r.info, parent) || r.delivery == Acknowledged { continue; }
      if r.delivery == Claimed && r.owner != Some(owner) && r.claimedAt.Some? && r.claimedAt.value + c.leaseMs > now {
        continue;
      }
      rs := rs[i := Take(r, owner, now)];
      claims := claims + [Claim(r.id, owner, r.generation + 1)];
    }
    ClaimEnd(kept, rs, claims, parent, owner, limit, now, c);
    LoopHandsFirst(kept, parent, owner, limit, now, c);
  }

  class MaestroCompletionQueue {
    const config: Config
    /** The persisted sequence; load reads it, save replaces it. */
    var records: seq<Rec>
    /** The next identifier randomUUID will yield. */
    var nextId: nat
    ghost var issued: set<Claim>

    ghost function View(): Queue
      reads this
    {
      Queue(records, nextId, issued)
    }

    constructor (config: Config, records: seq<Rec>, nextId: nat)
      ensures this.config == config && View() == Queue(records, nextId, {})
    {
      this.config, this.records, this.nextId, issued := config, records, nextId, {};
    }

    method EnqueueCompletion(input: Input, now: int, now': int) returns (reply: Result<Rec, Error>)
      modifies this`records, this`nextId
      ensures View() == Step(old(View()), OpEnqueue(input, now, now'), config)
      ensures reply == Enqueue(old(records), old(nextId), input, now, now', config).1
    {
      var id := nextId;
      nextId := nextId + 1;
      if !ValidInput(input) { return Err(InvalidInput); }
      records := Cleanup(records, now, config);
      var existing := LookupChild(records, input.child);
      if existing.Some? {
        if !SameCompletion(existing.value.info, input) { return Err(Conflict); }
        return Ok(existing.value);
      }
      if |records| >= config.maxEntries {
        records := Filter(records, (r: Rec) => r.delivery != Acknowledged);
      }
      if |records| >= config.maxEntries { return Err(CapacityReached); }
      var r := NewRecord(id, input, now');
      records := records + [r];
      return Ok(r);
    }

    method ClaimCompletions(parent: Parent, owner: Identity, limit: int, now: int)
      returns (reply: Result<seq<Claim>, Error>)
      modifies this`records, this`issued
      ensures View() == Step(old(View()), OpClaim(parent, owner, limit, now), config)
      ensures reply.Ok? <==>
        && (parent.instance.Some? ==> 1 <= |parent.instance.value| <= 512)
        && (parent.session.Some? ==> 1 <= |parent.session.value| <= 512)
        && (parent.instance.Some? || parent.session.Some?) && 1 <= |owner| <= 512 && 1 <= limit <= 64
      ensures reply.Ok? ==> |reply.value| <= limit && forall claim :: claim in reply.value ==> claim in issued
      ensures reply.Ok? ==>
        reply.value == Handed(First(Eligible(old(records), parent, owner, now, config), limit), owner)
    {
      if !ValidClaimer(parent, owner, limit) { return Err(InvalidInput); }
      var kept := Cleanup(records, now, config);
      records := kept;
      var rs, claims := ClaimRecords(kept, parent, owner, limit, now, config);
      if |claims| > 0 { records := rs; }
      issued := issued + set claim | claim in claims;
      ClaimsAreFirst(old(records), parent, owner, limit, now, config);
      return Ok(claims);
    }

    method AcknowledgeClaim(claim: Claim, now: int) returns (accepted: bool)
      modifies this`records
      ensures View() == Step(old(View()), OpAcknowledge(claim, now), config)
      ensures accepted == Acknowledge(old(records), claim, now).1
    {
      var r := Lookup(records, claim.id);
      if r.None? || r.value.owner != Some(claim.owner) || r.value.generation != claim.generation { return false; }
      if r.value.delivery == Acknowledged { return true; }
      if r.value.delivery != Claimed { return false; }
      records := Put(records, r.value.(delivery := Acknowledged, ackedAt := Some(now)));
      return true;
    }

    method ReleaseClaim(claim: Claim) returns (accepted: bool)
      modifies this`records
      ensures View() == Step(old(View()), OpRelease(claim), config)
      ensures accepted == Release(old(records), claim).1
    {
      var r := Lookup(records, claim.id);
      if r.None? || r.value.delivery != Claimed || r.value.owner != Some(claim.owner)
         || r.value.generation != claim.generation { return false; }
      records := Put(records, r.value.(delivery := Pending, owner := None, claimedAt := None));
      return true;
    }
  }
}
