/** The completion queue over whole runs: nothing is lost before it was acknowledged, and no stale claim acts. */
module CompletionRuns {
  import opened Basics
  import opened CompletionStore
  import opened CompletionSafety

  lemma ClaimEffect(q: Queue, op: Op, c: Config, claim: Claim)
    requires Stored(q.records, q.nextId) && op.OpClaim?
    requires claim in Step(q, op, c).issued && claim !in q.issued
    ensures Get(q, claim.id).Some? && claim == ClaimOf(Get(q, claim.id).value, op.owner)
    ensures Get(Step(q, op, c), claim.id) == Some(Take(Get(q, claim.id).value, op.owner, op.now))
  {
    var rs, n := q.records, q.nextId;
    RoomTrims(rs, n, op.now, c);
    var kept := Cleanup(rs, op.now, c);
    ClaimLoopLookup(kept, op.parent, op.owner, op.limit, op.now, c, 0, n, claim.id);
    LookupIn(kept, claim.id);
  }

  /** A claim that changed a record was issued by that very operation. */
  lemma TakenIsIssued(q: Queue, op: Op, c: Config, id: nat)
    requires Stored(q.records, q.nextId) && op.OpClaim? && Get(q, id).Some?
    requires Get(Step(q, op, c), id) == Some(Take(Get(q, id).value, op.owner, op.now))
    ensures ClaimOf(Get(q, id).value, op.owner) in Step(q, op, c).issued
  {
    var rs, n := q.records, q.nextId;
    RoomTrims(rs, n, op.now, c);
    ClaimLoopLookup(Cleanup(rs, op.now, c), op.parent, op.owner, op.limit, op.now, c, 0, n, id);
  }

  lemma StepIssued(q: Queue, op: Op, c: Config, claim: Claim)
    requires Inv(q) && claim in Step(q, op, c).issued
    ensures claim.id < Step(q, op, c).nextId && NotNewer(claim, Get(Step(q, op, c), claim.id))
  {
    if claim in q.issued {
      StepEffect(q, op, c, claim.id);
    } else {
      ClaimEffect(q, op, c, claim);
      LookupBelow(q, claim.id);
    }
  }

  lemma LookupBelow(q: Queue, id: nat)
    requires Stored(q.records, q.nextId) && Get(q, id).Some?
    ensures id < q.nextId && Get(q, id).value.id == id && Consistent(Get(q, id).value)
  {
    LookupIn(q.records, id);
    OrderedBounds(q.records, 0, q.nextId);
  }

  lemma StepUnique(q: Queue, op: Op, c: Config, a: Claim, b: Claim)
    requires Inv(q) && a in Step(q, op, c).issued && b in Step(q, op, c).issued
    requires a.id == b.id && a.generation == b.generation
    ensures a == b
  {
    if a !in q.issued && b !in q.issued {
      ClaimEffect(q, op, c, a);
      ClaimEffect(q, op, c, b);
    } else if a !in q.issued {
      ClaimEffect(q, op, c, a);
    } else if b !in q.issued {
      ClaimEffect(q, op, c, b);
    }
  }

  lemma StepHolder(q: Queue, op: Op, c: Config, id: nat)
    requires Inv(q) && id < Step(q, op, c).nextId
    ensures HolderIssued(Step(q, op, c), id)
  {
    if id < q.nextId {
      StepEffect(q, op, c, id);
      assert HolderIssued(q, id);
      var r, r' := Get(q, id), Get(Step(q, op, c), id);
      if r'.Some? && r' != r && op.OpClaim? {
        LookupBelow(q, id);
        TakenIsIssued(q, op, c, id);
      }
    } else {
      EnqueueOf(q.records, q.nextId, op.input, op.now, op.now', c);
    }
  }

  lemma StepKeeps(q: Queue, op: Op, c: Config)
    requires Inv(q)
    ensures Inv(Step(q, op, c))
  {
    var q' := Step(q, op, c);
    StepStored(q, op, c);
    forall claim | claim in q'.issued ensures claim.id < q'.nextId && NotNewer(claim, Get(q', claim.id)) {
      StepIssued(q, op, c, claim);
    }
    forall a, b | a in q'.issued && b in q'.issued && a.id == b.id && a.generation == b.generation ensures a == b {
      StepUnique(q, op, c, a, b);
    }
    forall id: nat | id < q'.nextId ensures HolderIssued(q', id) {
      StepHolder(q, op, c, id);
    }
  }

  lemma {:induction false} RunKeeps(q: Queue, ops: seq<Op>, c: Config)
    requires Inv(q)
    ensures Inv(Run(q, ops, c)) && q.issued <= Run(q, ops, c).issued && q.nextId <= Run(q, ops, c).nextId
    decreases |ops|
  {
    if ops != [] {
      StepKeeps(q, ops[0], c);
      StepGrows(q, ops[0], c);
      RunKeeps(Step(q, ops[0], c), ops[1..], c);
    }
  }

  lemma StepGrows(q: Queue, op: Op, c: Config)
    ensures q.issued <= Step(q, op, c).issued && q.nextId <= Step(q, op, c).nextId
  {}

  /** `op` in state `q` is an acknowledge that returns true for the newest claim ever issued on `id`. */
  ghost predicate Acknowledges(q: Queue, op: Op, id: nat) {
    && op.OpAcknowledge? && op.claim.id == id
    && Acknowledge(q.records, op.claim, op.now).1
    && op.claim in q.issued
    && forall claim :: claim in q.issued && claim.id == id ==> claim.generation <= op.claim.generation
  }

  predicate Gone(r: Option<Rec>) {
    r.None? || r.value.delivery == Acknowledged
  }

  lemma GoneByAcknowledge(q: Queue, op: Op, c: Config, id: nat)
    requires Inv(q) && id < q.nextId && !Gone(Get(q, id)) && Gone(Get(Step(q, op, c), id))
    ensures Acknowledges(q, op, id)
  {
    LookupBelow(q, id);
    StepEffect(q, op, c, id);
    assert HolderIssued(q, id);
  }

  /** A record leaves storage, or stops being deliverable, only through an acknowledge by its newest claim. */
  lemma {:induction false} LostOnlyIfAcknowledged(q: Queue, ops: seq<Op>, c: Config, id: nat)
    requires Inv(q) && !Gone(Get(q, id)) && Gone(Get(Run(q, ops, c), id))
    ensures exists k :: 0 <= k < |ops| && Acknowledges(Run(q, ops[..k], c), ops[k], id)
    decreases |ops|
  {
    var q' := Step(q, ops[0], c);
    LookupBelow(q, id);
    if Gone(Get(q', id)) {
      GoneByAcknowledge(q, ops[0], c, id);
      assert Run(q, ops[..0], c) == q;
    } else {
      StepKeeps(q, ops[0], c);
      LostOnlyIfAcknowledged(q', ops[1..], c, id);
      var k :| 0 <= k < |ops[1..]| && Acknowledges(Run(q', ops[1..][..k], c), ops[1..][k], id);
      assert ops[..k + 1][1..] == ops[1..][..k];
      assert Run(q, ops[..k + 1], c) == Run(q', ops[1..][..k], c);
    }
  }

  /** What a record says never changes, its claim generation never falls, and acknowledged is absorbing. */
  lemma {:induction false} RecordsOnlyAdvance(q: Queue, ops: seq<Op>, c: Config, id: nat)
    requires Inv(q) && id < q.nextId
    ensures var r, r' := Get(q, id), Get(Run(q, ops, c), id);
            && (r.None? ==> r'.None?)
            && (r.Some? && r'.Some? ==>
                  && r'.value.info == r.value.info && r.value.generation <= r'.value.generation
                  && (r.value.delivery == Acknowledged ==> r' == r))
    decreases |ops|
  {
    if ops != [] {
      StepEffect(q, ops[0], c, id);
      StepKeeps(q, ops[0], c);
      RecordsOnlyAdvance(Step(q, ops[0], c), ops[1..], c, id);
    }
  }

  /** A claim is spent once it was superseded by a newer generation, released, or outlived by its record. */
  predicate Spent(q: Queue, claim: Claim) {
    var r := Get(q, claim.id);
    r.None? || claim.generation < r.value.generation || (claim.generation == r.value.generation && r.value.owner.None?)
  }

  /** A spent claim can neither acknowledge nor release, then or ever after. */
  lemma {:induction false} SpentForGood(q: Queue, ops: seq<Op>, c: Config, claim: Claim, now: int)
    requires Inv(q) && claim.id < q.nextId && Spent(q, claim)
    ensures var t := Run(q, ops, c);
            Spent(t, claim) && Acknowledge(t.records, claim, now) == (t.records, false)
            && Release(t.records, claim) == (t.records, false)
    decreases |ops|
  {
    if ops != [] {
      StepEffect(q, ops[0], c, claim.id);
      StepKeeps(q, ops[0], c);
      SpentForGood(Step(q, ops[0], c), ops[1..], c, claim, now);
    }
  }

  /** Releasing spends the claim; so does any later claim of the same record, by anyone. */
  lemma ReleaseSpends(q: Queue, claim: Claim, c: Config)
    requires Inv(q) && Release(q.records, claim).1
    ensures Spent(Step(q, OpRelease(claim), c), claim)
  {
    LookupBelow(q, claim.id);
    PutLookup(q.records, Get(q, claim.id).value.(delivery := Pending, owner := None, claimedAt := None), claim.id);
  }

  lemma ReclaimSpends(q: Queue, op: Op, c: Config, old_: Claim, new_: Claim)
    requires Inv(q) && op.OpClaim? && old_ in q.issued
    requires new_ in Step(q, op, c).issued && new_ !in q.issued && new_.id == old_.id
    ensures old_.generation < new_.generation && Spent(Step(q, op, c), old_)
  {
    ClaimEffect(q, op, c, new_);
  }

  /** Of all claims issued on a record, at most one is not spent: deliveries never overlap. */
  lemma OneLiveClaim(q: Queue, a: Claim, b: Claim)
    requires Inv(q) && a in q.issued && b in q.issued && a.id == b.id && !Spent(q, a) && !Spent(q, b)
    ensures a == b && Get(q, a.id).Some? && Holds(Get(q, a.id).value, a)
  {
    var r := Get(q, a.id).value;
    LookupBelow(q, a.id);
    assert HolderIssued(q, a.id);
    assert a.generation == r.generation == b.generation;
  }

  /** The capacity bound survives every run. */
  lemma {:induction false} CapacityHolds(q: Queue, ops: seq<Op>, c: Config)
    requires Inv(q) && |q.records| <= c.maxEntries
    ensures |Run(q, ops, c).records| <= c.maxEntries
    decreases |ops|
  {
    if ops != [] {
      StepStored(q, ops[0], c);
      StepKeeps(q, ops[0], c);
      CapacityHolds(Step(q, ops[0], c), ops[1..], c);
    }
  }
}
