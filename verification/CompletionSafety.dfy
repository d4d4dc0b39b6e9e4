/** Safety of the completion queue over every sequence of operations and clock readings. */
module CompletionSafety {
  import opened Basics
  import opened CompletionStore

  // --- what the stored sequence keeps ---

  /** Identifiers strictly increase along the sequence, from `lo` and below `hi`. */
  predicate Ordered(rs: seq<Rec>, lo: nat, hi: nat) {
    if rs == [] then lo <= hi else lo <= rs[0].id && Ordered(rs[1..], rs[0].id + 1, hi)
  }

  function Children(rs: seq<Rec>): set<Identity> {
    if rs == [] then {} else {rs[0].info.child} + Children(rs[1..])
  }

  /** At most one record per child. */
  predicate OnePerChild(rs: seq<Rec>) {
    rs == [] || (rs[0].info.child !in Children(rs[1..]) && OnePerChild(rs[1..]))
  }

  /** The fields of a record agree with its delivery state. */
  predicate Consistent(r: Rec) {
    match r.delivery
    case Pending => r.owner.None? && r.claimedAt.None? && r.ackedAt.None?
    case Claimed => r.owner.Some? && r.claimedAt.Some? && r.ackedAt.None? && r.generation >= 1
    case Acknowledged => r.owner.Some? && r.ackedAt.Some? && r.generation >= 1
  }

  predicate Stored(rs: seq<Rec>, hi: nat) {
    Ordered(rs, 0, hi) && OnePerChild(rs) && forall r :: r in rs ==> Consistent(r)
  }

  lemma {:induction false} OrderedBounds(rs: seq<Rec>, lo: nat, hi: nat)
    requires Ordered(rs, lo, hi)
    ensures lo <= hi && forall r :: r in rs ==> lo <= r.id < hi
  {
    if rs != [] { OrderedBounds(rs[1..], rs[0].id + 1, hi); }
  }

  lemma {:induction false} OrderedWeaken(rs: seq<Rec>, lo: nat, lo': nat, hi: nat)
    requires lo' <= lo && Ordered(rs, lo, hi)
    ensures Ordered(rs, lo', hi)
  {}

  lemma {:induction false} LookupIn(rs: seq<Rec>, id: nat)
    ensures match Lookup(rs, id)
            case Some(r) => r in rs && r.id == id
            case None => forall r :: r in rs ==> r.id != id
  {
    if rs != [] { LookupIn(rs[1..], id); }
  }

  lemma {:induction false} FilterOf(rs: seq<Rec>, p: Rec -> bool, lo: nat, hi: nat)
    requires Ordered(rs, lo, hi)
    ensures Ordered(Filter(rs, p), lo, hi)
    ensures Children(Filter(rs, p)) <= Children(rs) && (OnePerChild(rs) ==> OnePerChild(Filter(rs, p)))
    ensures forall r :: r in Filter(rs, p) <==> r in rs && p(r)
    ensures |Filter(rs, p)| <= |rs|
  {
    if rs != [] {
      FilterOf(rs[1..], p, rs[0].id + 1, hi);
      var rest := Filter(rs[1..], p);
      if p(rs[0]) { assert Filter(rs, p)[1..] == rest; }
      else { OrderedWeaken(rest, rs[0].id + 1, lo, hi); assert Filter(rs, p) == rest; }
    }
  }

  lemma {:induction false} FilterLookup(rs: seq<Rec>, p: Rec -> bool, lo: nat, hi: nat, id: nat)
    requires Ordered(rs, lo, hi)
    ensures Lookup(Filter(rs, p), id)
         == if Lookup(rs, id).Some? && p(Lookup(rs, id).value) then Lookup(rs, id) else None
  {
    if rs != [] {
      FilterLookup(rs[1..], p, rs[0].id + 1, hi, id);
      var rest := Filter(rs[1..], p);
      if p(rs[0]) { assert Filter(rs, p)[1..] == rest; } else { assert Filter(rs, p) == rest; }
      if rs[0].id == id {
        OrderedBounds(rs[1..], id + 1, hi);
        LookupIn(rs[1..], id);
      }
    }
  }

  lemma {:induction false} PutOf(rs: seq<Rec>, r: Rec, lo: nat, hi: nat)
    requires Ordered(rs, lo, hi) && Lookup(rs, r.id).Some? && Lookup(rs, r.id).value.info.child == r.info.child
    ensures Ordered(Put(rs, r), lo, hi) && Children(Put(rs, r)) == Children(rs)
    ensures OnePerChild(rs) ==> OnePerChild(Put(rs, r))
    ensures forall x :: x in Put(rs, r) ==> x == r || x in rs
    ensures |Put(rs, r)| == |rs|
  {
    if rs[0].id != r.id {
      PutOf(rs[1..], r, rs[0].id + 1, hi);
      assert Put(rs, r)[1..] == Put(rs[1..], r);
    } else {
      assert Put(rs, r)[1..] == rs[1..];
    }
  }

  lemma {:induction false} PutLookup(rs: seq<Rec>, r: Rec, id: nat)
    requires Lookup(rs, r.id).Some?
    ensures Lookup(Put(rs, r), id) == if id == r.id then Some(r) else Lookup(rs, id)
  {
    if rs[0].id != r.id {
      PutLookup(rs[1..], r, id);
      assert Put(rs, r)[1..] == Put(rs[1..], r);
    } else {
      assert Put(rs, r)[1..] == rs[1..];
    }
  }

  lemma {:induction false} AppendOf(rs: seq<Rec>, r: Rec, lo: nat)
    requires Ordered(rs, lo, r.id) && r.info.child !in Children(rs)
    ensures Ordered(rs + [r], lo, r.id + 1) && Children(rs + [r]) == Children(rs) + {r.info.child}
    ensures OnePerChild(rs) ==> OnePerChild(rs + [r])
    ensures forall id ::
              Lookup(rs + [r], id)
              == if Lookup(rs, id).Some? then Lookup(rs, id) else if id == r.id then Some(r) else None
  {
    OrderedBounds(rs, lo, r.id);
    if rs == [] {
      assert rs + [r] == [r] && [r][1..] == [];
    } else {
      AppendOf(rs[1..], r, rs[0].id + 1);
      assert (rs + [r])[1..] == rs[1..] + [r];
    }
  }

  lemma {:induction false} ChildrenLookup(rs: seq<Rec>, child: Identity)
    ensures child in Children(rs) <==> LookupChild(rs, child).Some?
  {
    if rs != [] { ChildrenLookup(rs[1..], child); }
  }

  lemma {:induction false} ClaimLoopOf(rs: seq<Rec>, parent: Parent, owner: Identity, room: nat, now: int, c: Config,
                                       lo: nat, hi: nat)
    requires Ordered(rs, lo, hi)
    ensures var rs' := ClaimLoop(rs, parent, owner, room, now, c).0;
            && Ordered(rs', lo, hi) && Children(rs') == Children(rs) && |rs'| == |rs|
            && (OnePerChild(rs) ==> OnePerChild(rs'))
            && ((forall r :: r in rs ==> Consistent(r)) ==> forall r :: r in rs' ==> Consistent(r))
    decreases |rs|
  {
    if rs != [] {
      var took := room > 0 && Claimable(rs[0], parent, owner, now, c);
      var room' := if took then room - 1 else room;
      ClaimLoopOf(rs[1..], parent, owner, room', now, c, rs[0].id + 1, hi);
      assert ClaimLoop(rs, parent, owner, room, now, c).0[1..] == ClaimLoop(rs[1..], parent, owner, room', now, c).0;
    }
  }

  /** The claiming loop, seen from one record: left alone, or taken with one claim for it. */
  lemma {:induction false} ClaimLoopLookup(
    rs: seq<Rec>, parent: Parent, owner: Identity, room: nat, now: int, c: Config, lo: nat, hi: nat, id: nat)
    requires Ordered(rs, lo, hi)
    ensures var (rs', claims) := ClaimLoop(rs, parent, owner, room, now, c);
            match Lookup(rs, id)
            case None => Lookup(rs', id) == None && forall claim :: claim in claims ==> claim.id != id
            case Some(r) =>
              if ClaimOf(r, owner) in claims
              then Lookup(rs', id) == Some(Take(r, owner, now)) && Claimable(r, parent, owner, now, c)
                   && forall claim :: claim in claims && claim.id == id ==> claim == ClaimOf(r, owner)
              else Lookup(rs', id) == Some(r) && forall claim :: claim in claims ==> claim.id != id
    decreases |rs|
  {
    if rs != [] {
      var took := room > 0 && Claimable(rs[0], parent, owner, now, c);
      var room' := if took then room - 1 else room;
      ClaimLoopLookup(rs[1..], parent, owner, room', now, c, rs[0].id + 1, hi, id);
      var (rest, more) := ClaimLoop(rs[1..], parent, owner, room', now, c);
      var (rs', claims) := ClaimLoop(rs, parent, owner, room, now, c);
      assert rs'[1..] == rest;
      assert claims == (if took then [ClaimOf(rs[0], owner)] else []) + more;
      assert forall claim :: claim in claims <==> (took && claim == ClaimOf(rs[0], owner)) || claim in more;
      if rs[0].id == id {
        OrderedBounds(rs[1..], id + 1, hi);
        LookupIn(rs[1..], id);
      } else {
        LookupIn(rs[1..], id);
      }
    }
  }

  // --- one step, seen from one record ---

  /** Identifiers are fresh, claim generations are handed out once, and a holder's claim was issued. */
  ghost predicate Inv(q: Queue) {
    && Stored(q.records, q.nextId)
    && (forall claim :: claim in q.issued ==> claim.id < q.nextId && NotNewer(claim, Get(q, claim.id)))
    && (forall a, b :: a in q.issued && b in q.issued && a.id == b.id && a.generation == b.generation ==> a == b)
    && (forall id: nat :: id < q.nextId ==> HolderIssued(q, id))
  }

  predicate NotNewer(claim: Claim, r: Option<Rec>) {
    r.Some? ==> claim.generation <= r.value.generation
  }

  predicate HolderIssued(q: Queue, id: nat) {
    var r := Get(q, id);
    r.Some? && r.value.owner.Some? ==> Claim(id, r.value.owner.value, r.value.generation) in q.issued
  }

  /** All that one operation can do to the record `r` of an identifier already in use. */
  ghost predicate Effect(q: Queue, op: Op, r: Option<Rec>, q': Queue, r': Option<Rec>) {
    match (r, r')
    case (None, _) => r' == None
    case (Some(x), None) => x.delivery == Acknowledged
    case (Some(x), Some(x')) =>
      || x' == x
      || (op.OpClaim? && x.delivery != Acknowledged && x' == Take(x, op.owner, op.now))
      || (op.OpAcknowledge? && op.claim.id == x.id && x.delivery == Claimed && Holds(x, op.claim)
          && x' == x.(delivery := Acknowledged, ackedAt := Some(op.now)))
      || (op.OpRelease? && op.claim.id == x.id && x.delivery == Claimed && Holds(x, op.claim)
          && x' == x.(delivery := Pending, owner := None, claimedAt := None))
  }

  /** `rs'` is `rs` without some acknowledged records. */
  ghost predicate Trimmed(rs: seq<Rec>, rs': seq<Rec>, n: nat) {
    && Stored(rs', n) && |rs'| <= |rs|
    && forall id: nat :: KeptOrDone(Lookup(rs, id), Lookup(rs', id))
  }

  predicate KeptOrDone(r: Option<Rec>, r': Option<Rec>) {
    r' == r || (r' == None && r.value.delivery == Acknowledged)
  }

  lemma FilterTrims(rs: seq<Rec>, p: Rec -> bool, n: nat)
    requires Stored(rs, n) && forall r :: r in rs && !p(r) ==> r.delivery == Acknowledged
    ensures Trimmed(rs, Filter(rs, p), n)
  {
    FilterOf(rs, p, 0, n);
    forall id: nat ensures KeptOrDone(Lookup(rs, id), Lookup(Filter(rs, p), id)) {
      FilterLookup(rs, p, 0, n, id);
      LookupIn(rs, id);
    }
  }

  lemma RoomTrims(rs: seq<Rec>, n: nat, now: int, c: Config)
    requires Stored(rs, n)
    ensures Trimmed(rs, Cleanup(rs, now, c), n) && Trimmed(rs, Squeeze(Cleanup(rs, now, c), c), n)
    ensures Children(Squeeze(Cleanup(rs, now, c), c)) <= Children(Cleanup(rs, now, c))
  {
    FilterTrims(rs, (r: Rec) => Fresh(r, now - c.retentionMs), n);
    var kept := Cleanup(rs, now, c);
    FilterTrims(kept, (r: Rec) => r.delivery != Acknowledged, n);
    FilterOf(kept, (r: Rec) => r.delivery != Acknowledged, 0, n);
  }

  lemma {:induction false} OrderedHi(rs: seq<Rec>, lo: nat, hi: nat, hi': nat)
    requires hi <= hi' && Ordered(rs, lo, hi)
    ensures Ordered(rs, lo, hi')
  {
    if rs != [] { OrderedHi(rs[1..], rs[0].id + 1, hi, hi'); }
  }

  lemma AppendStored(rs: seq<Rec>, r: Rec)
    requires Stored(rs, r.id) && Consistent(r) && r.info.child !in Children(rs)
    ensures Stored(rs + [r], r.id + 1)
    ensures forall id: nat :: id < r.id ==> Lookup(rs + [r], id) == Lookup(rs, id)
    ensures Lookup(rs + [r], r.id) == Some(r)
  {
    AppendOf(rs, r, 0);
    OrderedBounds(rs, 0, r.id);
    LookupIn(rs, r.id);
  }

  /** A successful enqueue leaves the completion stored, under a fresh identifier unless it was there already. */
  lemma EnqueueOf(rs: seq<Rec>, n: nat, input: Input, now: int, now': int, c: Config)
    requires Stored(rs, n)
    ensures var (rs', reply) := Enqueue(rs, n, input, now, now', c);
            && Stored(rs', n + 1)
            && (|rs'| <= |rs| || |rs'| <= c.maxEntries)
            && (forall id: nat :: id < n ==> KeptOrDone(Lookup(rs, id), Lookup(rs', id)))
            && (reply.Ok? ==>
                 && Lookup(rs', reply.value.id) == Some(reply.value)
                 && reply.value.info.child == input.child && SameCompletion(reply.value.info, input)
                 && (reply.value.id < n || (reply.value.id == n && reply.value.info.terminal == input.terminal)))
            && (reply.Ok? ==> (reply.value.id < n <==> LookupChild(Cleanup(rs, now, c), input.child).Some?))
            && (Lookup(rs', n).Some? ==> reply.Ok? && Lookup(rs', n).value.owner.None?)
  {
    RoomTrims(rs, n, now, c);
    var kept := Cleanup(rs, now, c);
    var room := Squeeze(kept, c);
    OrderedHi(rs, 0, n, n + 1);
    OrderedHi(kept, 0, n, n + 1);
    OrderedHi(room, 0, n, n + 1);
    NotStored(rs, n);
    NotStored(kept, n);
    NotStored(room, n);
    ChildrenLookup(kept, input.child);
    var existing := LookupChild(kept, input.child);
    if ValidInput(input) && existing.Some? {
      LookupSelf(kept, existing.value, 0, n);
    } else if ValidInput(input) && |room| < c.maxEntries {
      AppendStored(room, NewRecord(n, input, now'));
    }
  }

  lemma NotStored(rs: seq<Rec>, n: nat)
    requires Ordered(rs, 0, n)
    ensures Lookup(rs, n) == None
  {
    OrderedBounds(rs, 0, n);
    LookupIn(rs, n);
  }

  lemma {:induction false} LookupSelf(rs: seq<Rec>, r: Rec, lo: nat, hi: nat)
    requires Ordered(rs, lo, hi) && r in rs
    ensures Lookup(rs, r.id) == Some(r) && lo <= r.id < hi
  {
    OrderedBounds(rs, lo, hi);
    if rs[0] != r {
      LookupSelf(rs[1..], r, rs[0].id + 1, hi);
    }
  }

  lemma StepEffect(q: Queue, op: Op, c: Config, id: nat)
    requires Stored(q.records, q.nextId) && id < q.nextId
    ensures Effect(q, op, Get(q, id), Step(q, op, c), Get(Step(q, op, c), id))
    ensures q.issued <= Step(q, op, c).issued && q.nextId <= Step(q, op, c).nextId
  {
    var rs, n := q.records, q.nextId;
    LookupIn(rs, id);
    match op
    case OpEnqueue(input, now, now') => EnqueueOf(rs, n, input, now, now', c);
    case OpClaim(parent, owner, limit, now) =>
      RoomTrims(rs, n, now, c);
      if ValidClaimer(parent, owner, limit) {
        ClaimLoopLookup(Cleanup(rs, now, c), parent, owner, limit, now, c, 0, n, id);
      }
    case OpAcknowledge(claim, now) => AcknowledgeEffect(rs, claim, now, id);
    case OpRelease(claim) => ReleaseEffect(rs, claim, id);
    case OpList(now) => RoomTrims(rs, n, now, c);
  }

  lemma AcknowledgeEffect(rs: seq<Rec>, claim: Claim, now: int, id: nat)
    ensures var rs' := Acknowledge(rs, claim, now).0;
            Lookup(rs', id) == Lookup(rs, id)
            || (claim.id == id && Lookup(rs, id).Some? && Lookup(rs, id).value.delivery == Claimed
                && Holds(Lookup(rs, id).value, claim)
                && Lookup(rs', id) == Some(Lookup(rs, id).value.(delivery := Acknowledged, ackedAt := Some(now))))
  {
    LookupIn(rs, claim.id);
    var r := Lookup(rs, claim.id);
    if r.Some? { PutLookup(rs, r.value.(delivery := Acknowledged, ackedAt := Some(now)), id); }
  }

  lemma ReleaseEffect(rs: seq<Rec>, claim: Claim, id: nat)
    ensures var rs' := Release(rs, claim).0;
            Lookup(rs', id) == Lookup(rs, id)
            || (claim.id == id && Lookup(rs, id).Some? && Lookup(rs, id).value.delivery == Claimed
                && Holds(Lookup(rs, id).value, claim)
                && Lookup(rs', id) == Some(Lookup(rs, id).value.(delivery := Pending, owner := None,
                                                                 claimedAt := None)))
  {
    LookupIn(rs, claim.id);
    var r := Lookup(rs, claim.id);
    if r.Some? { PutLookup(rs, r.value.(delivery := Pending, owner := None, claimedAt := None), id); }
  }

  lemma PutStored(rs: seq<Rec>, r: Rec, n: nat)
    requires Stored(rs, n) && Consistent(r) && Lookup(rs, r.id).Some? && Lookup(rs, r.id).value.info == r.info
    ensures Stored(Put(rs, r), n) && |Put(rs, r)| == |rs|
  {
    PutOf(rs, r, 0, n);
  }

  /** The sequence stays well formed, and never grows beyond the capacity. */
  lemma StepStored(q: Queue, op: Op, c: Config)
    requires Stored(q.records, q.nextId)
    ensures Stored(Step(q, op, c).records, Step(q, op, c).nextId)
    ensures |Step(q, op, c).records| <= |q.records| || |Step(q, op, c).records| <= c.maxEntries
  {
    var rs, n := q.records, q.nextId;
    match op
    case OpEnqueue(input, now, now') => EnqueueOf(rs, n, input, now, now', c);
    case OpClaim(parent, owner, limit, now) =>
      RoomTrims(rs, n, now, c);
      if ValidClaimer(parent, owner, limit) {
        ClaimLoopOf(Cleanup(rs, now, c), parent, owner, limit, now, c, 0, n);
      }
    case OpAcknowledge(claim, now) =>
      LookupIn(rs, claim.id);
      var r := Lookup(rs, claim.id);
      if r.Some? && r.value.delivery == Claimed {
        PutStored(rs, r.value.(delivery := Acknowledged, ackedAt := Some(now)), n);
      }
    case OpRelease(claim) =>
      LookupIn(rs, claim.id);
      var r := Lookup(rs, claim.id);
      if r.Some? && r.value.delivery == Claimed {
        PutStored(rs, r.value.(delivery := Pending, owner := None, claimedAt := None), n);
      }
    case OpList(now) => RoomTrims(rs, n, now, c);
  }
}
