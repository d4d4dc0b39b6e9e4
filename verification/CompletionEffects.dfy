/** What each operation of the completion queue answers and does, spelled out field by field. */
module CompletionEffects {
  import opened Basics
  import opened JsText
  import opened CompletionStore
  import opened CompletionSafety

  // --- what a cleanup drops ---

  predicate Expired(r: Rec, now: int, c: Config) {
    r.delivery == Acknowledged && r.ackedAt.Some? && r.ackedAt.value < now - c.retentionMs
  }

  lemma CleanupOf(rs: seq<Rec>, n: nat, now: int, c: Config, id: nat)
    requires Stored(rs, n)
    ensures Lookup(Cleanup(rs, now, c), id)
         == if Lookup(rs, id).Some? && !Expired(Lookup(rs, id).value, now, c) then Lookup(rs, id) else None
    ensures forall r :: r in Cleanup(rs, now, c) <==> r in rs && !Expired(r, now, c)
  {
    FilterOf(rs, (r: Rec) => Fresh(r, now - c.retentionMs), 0, n);
    FilterLookup(rs, (r: Rec) => Fresh(r, now - c.retentionMs), 0, n, id);
  }

  lemma {:induction false} FilterTwice(rs: seq<Rec>, p: Rec -> bool, q: Rec -> bool)
    requires forall r :: q(r) ==> p(r)
    ensures Filter(Filter(rs, p), q) == Filter(rs, q)
  {
    if rs != [] {
      FilterTwice(rs[1..], p, q);
      var rest := Filter(rs[1..], p);
      if p(rs[0]) { assert ([rs[0]] + rest)[1..] == rest; } else { assert [] + rest == rest; }
    }
  }

  // --- claims ---

  /** The record names the claiming parent: by instance if it names one, else by session. */
  predicate Addressed(r: Rec, parent: Parent) {
    || (r.info.parentInstance.Some? && r.info.parentInstance == parent.instance)
    || (r.info.parentInstance.None? && r.info.parentSession == parent.session)
  }

  /** Somebody else holds the record and the lease has not run out. */
  predicate HeldByOther(r: Rec, owner: Identity, now: int, c: Config) {
    r.delivery == Claimed && r.owner != Some(owner) && r.claimedAt.Some? && now - r.claimedAt.value < c.leaseMs
  }

  predicate Offered(r: Rec, parent: Parent, owner: Identity, now: int, c: Config) {
    Addressed(r, parent) && (r.delivery == Pending || r.delivery == Claimed) && !HeldByOther(r, owner, now, c)
  }

  /** The records a claim may hand out, in order. */
  function Eligible(rs: seq<Rec>, parent: Parent, owner: Identity, now: int, c: Config): seq<Rec> {
    Filter(rs, (r: Rec) => Offered(r, parent, owner, now, c))
  }

  function First(rs: seq<Rec>, n: nat): seq<Rec> { if |rs| <= n then rs else rs[..n] }

  function Handed(rs: seq<Rec>, owner: Identity): (claims: seq<Claim>)
    ensures |claims| == |rs| && forall i :: 0 <= i < |rs| ==> claims[i] == Claim(rs[i].id, owner, rs[i].generation + 1)
  {
    seq(|rs|, i requires 0 <= i < |rs| => Claim(rs[i].id, owner, rs[i].generation + 1))
  }

  lemma {:induction false} LoopHandsFirst(rs: seq<Rec>, parent: Parent, owner: Identity, room: nat, now: int, c: Config)
    ensures ClaimLoop(rs, parent, owner, room, now, c).1
         == Handed(First(Eligible(rs, parent, owner, now, c), room), owner)
    decreases |rs|
  {
    if rs != [] {
      var open := Offered(rs[0], parent, owner, now, c);
      assert open == Claimable(rs[0], parent, owner, now, c);
      var took := room > 0 && open;
      LoopHandsFirst(rs[1..], parent, owner, if took then room - 1 else room, now, c);
      var rest := Eligible(rs[1..], parent, owner, now, c);
      var all := Eligible(rs, parent, owner, now, c);
      assert all == (if open then [rs[0]] else []) + rest;
      if took { assert First(all, room) == [rs[0]] + First(rest, room - 1); }
      else { assert First(all, room) == First(rest, room); }
    }
  }

  /** Expired records are not on offer, so the cleanup before a claim does not matter to it. */
  lemma ClaimsAreFirst(rs: seq<Rec>, parent: Parent, owner: Identity, room: nat, now: int, c: Config)
    ensures ClaimLoop(Cleanup(rs, now, c), parent, owner, room, now, c).1
         == Handed(First(Eligible(rs, parent, owner, now, c), room), owner)
  {
    LoopHandsFirst(Cleanup(rs, now, c), parent, owner, room, now, c);
    FilterTwice(rs, (r: Rec) => Fresh(r, now - c.retentionMs), (r: Rec) => Offered(r, parent, owner, now, c));
  }

  /** The record after it was handed to `owner`. */
  function HandedTo(r: Rec, owner: Identity, now: int): Rec {
    Rec(r.id, r.info, Claimed, Some(owner), r.generation + 1, Some(now), None)
  }

  lemma InHanded(rs: seq<Rec>, E: seq<Rec>, r: Rec, owner: Identity, n: nat)
    requires Ordered(rs, 0, n) && r in rs && forall x :: x in E ==> x in rs
    ensures Claim(r.id, owner, r.generation + 1) in Handed(E, owner) <==> r in E
  {
    var claims := Handed(E, owner);
    if Claim(r.id, owner, r.generation + 1) in claims {
      var i :| 0 <= i < |claims| && claims[i] == Claim(r.id, owner, r.generation + 1);
      LookupSelf(rs, r, 0, n);
      LookupSelf(rs, E[i], 0, n);
    }
    if r in E {
      var i :| 0 <= i < |E| && E[i] == r;
      assert claims[i] in claims;
    }
  }

  lemma EligibleOf(rs: seq<Rec>, n: nat, parent: Parent, owner: Identity, now: int, c: Config)
    requires Ordered(rs, 0, n)
    ensures var all := Eligible(rs, parent, owner, now, c);
            Ordered(all, 0, n) && forall r :: r in all <==> r in rs && Offered(r, parent, owner, now, c)
  {
    FilterOf(rs, (r: Rec) => Offered(r, parent, owner, now, c), 0, n);
  }

  /** One record before and after a claim. */
  ghost predicate ClaimedAs(r: Option<Rec>, r': Option<Rec>, E: seq<Rec>, owner: Identity, now: int, c: Config) {
    match r
    case None => r' == None
    case Some(x) =>
      r' == if x in E then Some(HandedTo(x, owner, now)) else if Expired(x, now, c) then None else Some(x)
  }

  lemma ClaimOne(rs: seq<Rec>, n: nat, parent: Parent, owner: Identity, limit: nat, now: int, c: Config, id: nat)
    requires Stored(rs, n)
    ensures var E := First(Eligible(rs, parent, owner, now, c), limit);
            var rs' := ClaimLoop(Cleanup(rs, now, c), parent, owner, limit, now, c).0;
            ClaimedAs(Lookup(rs, id), Lookup(rs', id), E, owner, now, c)
  {
    var kept, all := Cleanup(rs, now, c), Eligible(rs, parent, owner, now, c);
    var E := First(all, limit);
    RoomTrims(rs, n, now, c);
    ClaimsAreFirst(rs, parent, owner, limit, now, c);
    CleanupOf(rs, n, now, c, id);
    EligibleOf(rs, n, parent, owner, now, c);
    ClaimLoopLookup(kept, parent, owner, limit, now, c, 0, n, id);
    LookupIn(rs, id);
    var r := Lookup(rs, id);
    if r.Some? {
      assert forall x :: x in E ==> x in all;
      InHanded(rs, E, r.value, owner, n);
    }
  }

  /**
   * A valid claim hands out exactly the first `limit` records, in the order of the queue, that name the claiming
   * parent, are not acknowledged and are not held by another owner within the lease; each becomes claimed by `owner`
   * under the next generation, and nothing else changes but that expired records go.
   */
  lemma ClaimHandsOut(q: Queue, parent: Parent, owner: Identity, limit: int, now: int, c: Config, id: nat)
    requires Stored(q.records, q.nextId) && ValidClaimer(parent, owner, limit)
    ensures var q' := Step(q, OpClaim(parent, owner, limit, now), c);
            var E := First(Eligible(q.records, parent, owner, now, c), limit);
            && q'.issued == q.issued + (set claim | claim in Handed(E, owner))
            && ClaimedAs(Get(q, id), Get(q', id), E, owner, now, c)
    ensures var all := Eligible(q.records, parent, owner, now, c);
            Ordered(all, 0, q.nextId) && forall r :: r in all <==> r in q.records && Offered(r, parent, owner, now, c)
  {
    ClaimsAreFirst(q.records, parent, owner, limit, now, c);
    ClaimOne(q.records, q.nextId, parent, owner, limit, now, c, id);
    EligibleOf(q.records, q.nextId, parent, owner, now, c);
  }

  /** Nobody but the parent a completion names is ever handed it. */
  lemma OnlyForItsParent(q: Queue, parent: Parent, owner: Identity, limit: int, now: int, c: Config, claim: Claim)
    requires Inv(q) && claim in Step(q, OpClaim(parent, owner, limit, now), c).issued && claim !in q.issued
    ensures Get(q, claim.id).Some? && claim.owner == owner
    ensures var r := Get(q, claim.id).value;
            && claim.generation == r.generation + 1 && r.delivery != Acknowledged
            && (if r.info.parentInstance.Some? then r.info.parentInstance == parent.instance
                else r.info.parentSession == parent.session)
            && (r.delivery == Claimed && r.owner != Some(owner) && r.claimedAt.Some? ==>
                  r.claimedAt.value + c.leaseMs <= now)
  {
    var rs, n := q.records, q.nextId;
    var all := Eligible(rs, parent, owner, now, c);
    var E := First(all, limit);
    ClaimHandsOut(q, parent, owner, limit, now, c, claim.id);
    var claims := Handed(E, owner);
    var i :| 0 <= i < |claims| && claims[i] == claim;
    assert E[i] in all;
    LookupSelf(rs, E[i], 0, n);
  }

  // --- enqueue ---

  /** What enqueue demands of a completion. */
  predicate Acceptable(input: Input) {
    && (input.parentInstance.Some? ==> 1 <= |input.parentInstance.value| <= 512)
    && (input.parentSession.Some? ==> 1 <= |input.parentSession.value| <= 512)
    && (input.parentInstance.None? ==> input.parentSession.Some?)
    && 1 <= |input.child| <= 512 && (input.childSession.Some? ==> 1 <= |input.childSession.value| <= 512)
    && |input.hash| == 64 && (forall i :: 0 <= i < 64 ==> input.hash[i] in Ascii("0123456789abcdef"))
    && input.completedAt.Some?
  }

  lemma HexDigits(h: Text)
    requires |h| == 64
    ensures HexDigest(h) <==> forall i :: 0 <= i < 64 ==> h[i] in Ascii("0123456789abcdef")
  {
    var digits := Ascii("0123456789abcdef");
    forall x: CodeUnit ensures x in digits <==> 48 <= x <= 57 || 97 <= x <= 102 {
      assert digits == [48, 49, 50, 51, 52, 53, 54, 55, 56, 57, 97, 98, 99, 100, 101, 102];
    }
  }

  lemma AcceptableIsValid(input: Input)
    ensures Acceptable(input) <==> ValidInput(input)
  {
    if |input.hash| == 64 { HexDigits(input.hash); }
  }

  /** A record that still stands for the child when its completion is offered. */
  predicate StandsFor(rs: seq<Rec>, x: Rec, child: Identity, now: int, c: Config) {
    x in rs && !Expired(x, now, c) && x.info.child == child
  }

  lemma {:induction false} OneStands(rs: seq<Rec>, x: Rec)
    requires OnePerChild(rs) && x in rs
    ensures LookupChild(rs, x.info.child) == Some(x)
    decreases |rs|
  {
    if x != rs[0] {
      OneStands(rs[1..], x);
      ChildrenLookup(rs[1..], x.info.child);
    }
  }

  lemma StandingIsFound(rs: seq<Rec>, n: nat, child: Identity, now: int, c: Config)
    requires Stored(rs, n)
    ensures forall x :: StandsFor(rs, x, child, now, c) <==> LookupChild(Cleanup(rs, now, c), child) == Some(x)
    ensures LookupChild(Cleanup(rs, now, c), child).Some? ==> exists x :: StandsFor(rs, x, child, now, c)
  {
    var kept := Cleanup(rs, now, c);
    CleanupOf(rs, n, now, c, 0);
    RoomTrims(rs, n, now, c);
    forall x | StandsFor(rs, x, child, now, c) ensures LookupChild(kept, child) == Some(x) { OneStands(kept, x); }
    var found := LookupChild(kept, child);
    if found.Some? { assert StandsFor(rs, found.value, child, now, c); }
  }

  function Unacknowledged(rs: seq<Rec>): seq<Rec> { Filter(rs, (r: Rec) => r.delivery != Acknowledged) }

  lemma {:induction false} FilterAll(rs: seq<Rec>, p: Rec -> bool)
    ensures |Filter(rs, p)| <= |rs|
  {
    if rs != [] { FilterAll(rs[1..], p); }
  }

  lemma RoomIsUnacknowledged(rs: seq<Rec>, now: int, c: Config)
    ensures |Squeeze(Cleanup(rs, now, c), c)| >= c.maxEntries <==> |Unacknowledged(rs)| >= c.maxEntries
  {
    var kept := Cleanup(rs, now, c);
    FilterTwice(rs, (r: Rec) => Fresh(r, now - c.retentionMs), (r: Rec) => r.delivery != Acknowledged);
    FilterAll(kept, (r: Rec) => r.delivery != Acknowledged);
  }

  /** The stored summary: trimmed, at most 4000 characters, and none rather than an empty one. */
  ghost predicate Shortened(summary: Option<Text>, stored: Option<Text>) {
    if summary.None? || Trim(summary.value) == [] then stored.None?
    else stored.Some? && stored.value <= Trim(summary.value)
         && |stored.value| == if |Trim(summary.value)| < 4000 then |Trim(summary.value)| else 4000
  }

  /** A fresh record that says what `input` says. */
  ghost predicate Records(r: Rec, id: nat, input: Input, now': int) {
    && r.id == id && r.delivery == Pending && r.owner.None? && r.generation == 0 && r.claimedAt.None? && r.ackedAt.None?
    && r.info.parentInstance == input.parentInstance && r.info.parentSession == input.parentSession
    && r.info.child == input.child && r.info.childSession == input.childSession
    && r.info.terminal == input.terminal && Shortened(input.summary, r.info.summary)
    && r.info.hash == input.hash && r.info.completedAt == input.completedAt && r.info.createdAt == now'
  }

  predicate Same(x: Rec, input: Input) {
    && x.info.hash == input.hash && x.info.parentInstance == input.parentInstance
    && x.info.parentSession == input.parentSession
  }

  lemma EnqueueAgain(rs: seq<Rec>, n: nat, input: Input, now: int, now': int, c: Config, x: Rec)
    requires Stored(rs, n) && Acceptable(input) && StandsFor(rs, x, input.child, now, c)
    ensures Enqueue(rs, n, input, now, now', c).1 == if Same(x, input) then Ok(x) else Err(Conflict)
  {
    AcceptableIsValid(input);
    StandingIsFound(rs, n, input.child, now, c);
  }

  lemma {:induction false} CutTo(t: Text, n: nat)
    ensures var cut := if |t| > n then t[..n] else t; cut <= t && |cut| == if |t| < n then |t| else n
  {}

  lemma {:induction false} SummaryIs(summary: Option<Text>)
    ensures Shortened(summary, Summary(summary))
  {
    if summary.Some? { CutTo(Trim(summary.value), 4000); }
  }

  lemma NewRecordIs(id: nat, input: Input, now': int)
    ensures Records(NewRecord(id, input, now'), id, input, now')
  {
    SummaryIs(input.summary);
  }

  lemma EnqueueNew(rs: seq<Rec>, n: nat, input: Input, now: int, now': int, c: Config)
    requires Stored(rs, n) && Acceptable(input) && forall x :: !StandsFor(rs, x, input.child, now, c)
    ensures var (rs', reply) := Enqueue(rs, n, input, now, now', c);
            if |Unacknowledged(rs)| >= c.maxEntries then reply == Err(CapacityReached)
            else reply.Ok? && Records(reply.value, n, input, now') && Lookup(rs', n) == Some(reply.value)
  {
    AcceptableIsValid(input);
    StandingIsFound(rs, n, input.child, now, c);
    RoomIsUnacknowledged(rs, now, c);
    EnqueueOf(rs, n, input, now, now', c);
    NewRecordIs(n, input, now');
  }

  /**
   * What enqueue answers: an unacceptable completion is refused; one that stands for the child is returned, or is a
   * conflict if hash or parents differ; otherwise a new record is stored, unless unacknowledged ones fill the queue.
   */
  lemma EnqueueAnswers(rs: seq<Rec>, n: nat, input: Input, now: int, now': int, c: Config)
    requires Stored(rs, n)
    ensures var (rs', reply) := Enqueue(rs, n, input, now, now', c);
            && (reply == Err(InvalidInput) <==> !Acceptable(input))
            && (forall x :: Acceptable(input) && StandsFor(rs, x, input.child, now, c) ==>
                  reply == if Same(x, input) then Ok(x) else Err(Conflict))
            && (Acceptable(input) && (forall x :: !StandsFor(rs, x, input.child, now, c)) ==>
                  if |Unacknowledged(rs)| >= c.maxEntries then reply == Err(CapacityReached)
                  else reply.Ok? && Records(reply.value, n, input, now') && Lookup(rs', n) == Some(reply.value))
  {
    AcceptableIsValid(input);
    if Acceptable(input) {
      forall x | StandsFor(rs, x, input.child, now, c)
        ensures Enqueue(rs, n, input, now, now', c).1 == if Same(x, input) then Ok(x) else Err(Conflict)
      {
        EnqueueAgain(rs, n, input, now, now', c, x);
      }
      if forall x :: !StandsFor(rs, x, input.child, now, c) { EnqueueNew(rs, n, input, now, now', c); }
    }
  }

  /** Of the records stored before, enqueue drops the expired ones, and when it needs room the acknowledged ones. */
  lemma EnqueueDrops(rs: seq<Rec>, n: nat, input: Input, now: int, now': int, c: Config, id: nat)
    requires Stored(rs, n) && id < n && Lookup(rs, id).Some?
    ensures var x := Lookup(rs, id).value; var kept := Cleanup(rs, now, c);
            var full := LookupChild(kept, input.child).None? && |kept| >= c.maxEntries;
            Lookup(Enqueue(rs, n, input, now, now', c).0, id)
            == if Acceptable(input) && (Expired(x, now, c) || (full && x.delivery == Acknowledged)) then None
               else Some(x)
  {
    var kept := Cleanup(rs, now, c);
    AcceptableIsValid(input);
    CleanupOf(rs, n, now, c, id);
    RoomTrims(rs, n, now, c);
    FilterLookup(kept, (r: Rec) => r.delivery != Acknowledged, 0, n, id);
    ChildrenLookup(kept, input.child);
    var room := Squeeze(kept, c);
    if ValidInput(input) && LookupChild(kept, input.child).None? && |room| < c.maxEntries {
      AppendStored(room, NewRecord(n, input, now'));
    }
  }

  // --- acknowledge and release ---

  /** The record is under exactly this claim. */
  predicate Under(r: Rec, claim: Claim) {
    r.id == claim.id && r.owner == Some(claim.owner) && r.generation == claim.generation
  }

  /** acknowledge succeeds exactly for the claim a record is under, also again, and then dates the acknowledgement. */
  lemma AcknowledgeIff(q: Queue, claim: Claim, now: int, c: Config, id: nat)
    requires Inv(q)
    ensures var (rs', ok) := Acknowledge(q.records, claim, now); var r := Get(q, id);
            && (ok <==> exists x :: x in q.records && Under(x, claim))
            && Get(Step(q, OpAcknowledge(claim, now), c), id)
               == if r.Some? && Under(r.value, claim) && r.value.delivery == Claimed
                  then Some(Rec(id, r.value.info, Acknowledged, r.value.owner, r.value.generation, r.value.claimedAt,
                                Some(now)))
                  else r
  {
    var rs := q.records;
    LookupIn(rs, claim.id);
    LookupIn(rs, id);
    AcknowledgeEffect(rs, claim, now, id);
    var x := Lookup(rs, claim.id);
    if x.Some? {
      assert Consistent(x.value);
      PutLookup(rs, x.value.(delivery := Acknowledged, ackedAt := Some(now)), id);
    }
    forall y | y in rs && Under(y, claim) ensures x == Some(y) { LookupSelf(rs, y, 0, q.nextId); }
  }

  /** release succeeds exactly for the claim a record is held under, and gives the record back for the next claim. */
  lemma ReleaseIff(q: Queue, claim: Claim, c: Config, id: nat)
    requires Inv(q)
    ensures var (rs', ok) := Release(q.records, claim); var r := Get(q, id);
            && (ok <==> exists x :: x in q.records && Under(x, claim) && x.delivery == Claimed)
            && Get(Step(q, OpRelease(claim), c), id)
               == if r.Some? && Under(r.value, claim) && r.value.delivery == Claimed
                  then Some(Rec(id, r.value.info, Pending, None, r.value.generation, None, r.value.ackedAt))
                  else r
  {
    var rs := q.records;
    LookupIn(rs, claim.id);
    LookupIn(rs, id);
    ReleaseEffect(rs, claim, id);
    var x := Lookup(rs, claim.id);
    if x.Some? { PutLookup(rs, x.value.(delivery := Pending, owner := None, claimedAt := None), id); }
    forall y | y in rs && Under(y, claim) ensures x == Some(y) { LookupSelf(rs, y, 0, q.nextId); }
  }
}
