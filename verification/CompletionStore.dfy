/** The durable completion queue as a machine over its persisted sequence of records. */
module CompletionStore {
  import opened Basics
  import opened JsText

  datatype TerminalState = Succeeded | Failed | Interrupted | Cancelled

  datatype Delivery = Pending | Claimed | Acknowledged

  type Identity = Text

  const MAX_SUMMARY_CHARS: nat := 4_000

  datatype Input = Input(
    parentInstance: Option<Identity>, parentSession: Option<Identity>,
    child: Identity, childSession: Option<Identity>,
    terminal: TerminalState, summary: Option<Text>, hash: Text, completedAt: Option<int>)

  /** What a record says about the completion; fixed when it is enqueued. */
  datatype Info = Info(
    parentInstance: Option<Identity>, parentSession: Option<Identity>,
    child: Identity, childSession: Option<Identity>,
    terminal: TerminalState, summary: Option<Text>, hash: Text, completedAt: Option<int>, createdAt: int)

  datatype Rec = Rec(
    id: nat, info: Info, delivery: Delivery,
    owner: Option<Identity>, generation: nat, claimedAt: Option<int>, ackedAt: Option<int>)

  datatype Claim = Claim(id: nat, owner: Identity, generation: nat)

  datatype Parent = Parent(instance: Option<Identity>, session: Option<Identity>)

  datatype Error = InvalidInput | Conflict | CapacityReached

  datatype Config = Config(leaseMs: nat, retentionMs: nat, maxEntries: nat)

  // --- one operation at a time ---

  predicate BoundedIdentity(v: Option<Identity>) {
    v.None? || 1 <= |v.value| <= 512
  }

  predicate HexDigest(h: Text) {
    |h| == 64 && forall i :: 0 <= i < |h| ==> 48 <= h[i] <= 57 || 97 <= h[i] <= 102
  }

  predicate ValidInput(input: Input) {
    && BoundedIdentity(input.parentInstance) && BoundedIdentity(input.parentSession)
    && (input.parentInstance.Some? || input.parentSession.Some?)
    && BoundedIdentity(Some(input.child)) && BoundedIdentity(input.childSession)
    && HexDigest(input.hash) && input.completedAt.Some?
  }

  predicate ValidClaimer(parent: Parent, owner: Identity, limit: int) {
    && BoundedIdentity(parent.instance) && BoundedIdentity(parent.session)
    && (parent.instance.Some? || parent.session.Some?)
    && BoundedIdentity(Some(owner)) && 1 <= limit <= 64
  }

  function Summary(s: Option<Text>): Option<Text> {
    if s.None? then None
    else
      var t := Trim(s.value);
      var cut := if |t| > MAX_SUMMARY_CHARS then t[..MAX_SUMMARY_CHARS] else t;
      if cut == [] then None else Some(cut)
  }

  predicate MatchesParent(info: Info, parent: Parent) {
    if info.parentInstance.Some? then info.parentInstance == parent.instance
    else info.parentSession == parent.session
  }

  function Filter(rs: seq<Rec>, p: Rec -> bool): seq<Rec> {
    if rs == [] then [] else (if p(rs[0]) then [rs[0]] else []) + Filter(rs[1..], p)
  }

  predicate Fresh(r: Rec, cutoff: int) {
    r.delivery != Acknowledged || r.ackedAt.None? || r.ackedAt.value >= cutoff
  }

  /** cleanupAcknowledged. */
  function Cleanup(rs: seq<Rec>, now: int, c: Config): seq<Rec> {
    Filter(rs, (r: Rec) => Fresh(r, now - c.retentionMs))
  }

  function Lookup(rs: seq<Rec>, id: nat): Option<Rec> {
    if rs == [] then None else if rs[0].id == id then Some(rs[0]) else Lookup(rs[1..], id)
  }

  function LookupChild(rs: seq<Rec>, child: Identity): (r: Option<Rec>)
    ensures r.Some? ==> r.value in rs && r.value.info.child == child
  {
    if rs == [] then None else if rs[0].info.child == child then Some(rs[0]) else LookupChild(rs[1..], child)
  }

  /** Overwrites the record with r's id. */
  function Put(rs: seq<Rec>, r: Rec): seq<Rec> {
    if rs == [] then [] else if rs[0].id == r.id then [r] + rs[1..] else [rs[0]] + Put(rs[1..], r)
  }

  predicate SameCompletion(info: Info, input: Input) {
    info.hash == input.hash && info.parentInstance == input.parentInstance && info.parentSession == input.parentSession
  }

  function NewRecord(id: nat, input: Input, now: int): Rec {
    Rec(id,
        Info(input.parentInstance, input.parentSession, input.child, input.childSession, input.terminal,
             Summary(input.summary), input.hash, input.completedAt, now),
        Pending, None, 0, None, None)
  }

  /** Makes room by dropping acknowledged records when full. */
  function Squeeze(rs: seq<Rec>, c: Config): seq<Rec> {
    if |rs| >= c.maxEntries then Filter(rs, (r: Rec) => r.delivery != Acknowledged) else rs
  }

  function Enqueue(rs: seq<Rec>, id: nat, input: Input, now: int, now': int, c: Config)
    : (seq<Rec>, Result<Rec, Error>)
  {
    if !ValidInput(input) then (rs, Err(InvalidInput))
    else
      var kept := Cleanup(rs, now, c);
      var existing := LookupChild(kept, input.child);
      if existing.Some? then
        (kept, if SameCompletion(existing.value.info, input) then Ok(existing.value) else Err(Conflict))
      else
        var room := Squeeze(kept, c);
        if |room| >= c.maxEntries then (room, Err(CapacityReached))
        else (room + [NewRecord(id, input, now')], Ok(NewRecord(id, input, now')))
  }

  predicate Claimable(r: Rec, parent: Parent, owner: Identity, now: int, c: Config) {
    && MatchesParent(r.info, parent) && r.delivery != Acknowledged
    && !(r.delivery == Claimed && r.owner != Some(owner) && r.claimedAt.Some? && r.claimedAt.value + c.leaseMs > now)
  }

  function Take(r: Rec, owner: Identity, now: int): Rec {
    r.(delivery := Claimed, owner := Some(owner), generation := r.generation + 1, claimedAt := Some(now),
       ackedAt := None)
  }

  function ClaimOf(r: Rec, owner: Identity): Claim { Claim(r.id, owner, r.generation + 1) }

  /** The claiming loop, with `room` claims still allowed. */
  function ClaimLoop(rs: seq<Rec>, parent: Parent, owner: Identity, room: nat, now: int, c: Config)
    : (seq<Rec>, seq<Claim>)
  {
    if rs == [] then ([], [])
    else if room > 0 && Claimable(rs[0], parent, owner, now, c) then
      var (rest, claims) := ClaimLoop(rs[1..], parent, owner, room - 1, now, c);
      ([Take(rs[0], owner, now)] + rest, [ClaimOf(rs[0], owner)] + claims)
    else
      var (rest, claims) := ClaimLoop(rs[1..], parent, owner, room, now, c);
      ([rs[0]] + rest, claims)
  }

  predicate Holds(r: Rec, claim: Claim) {
    r.owner == Some(claim.owner) && r.generation == claim.generation
  }

  function Acknowledge(rs: seq<Rec>, claim: Claim, now: int): (seq<Rec>, bool) {
    var r := Lookup(rs, claim.id);
    if r.None? || !Holds(r.value, claim) then (rs, false)
    else match r.value.delivery
      case Acknowledged => (rs, true)
      case Pending => (rs, false)
      case Claimed => (Put(rs, r.value.(delivery := Acknowledged, ackedAt := Some(now))), true)
  }

  function Release(rs: seq<Rec>, claim: Claim): (seq<Rec>, bool) {
    var r := Lookup(rs, claim.id);
    if r.None? || r.value.delivery != Claimed || !Holds(r.value, claim) then (rs, false)
    else (Put(rs, r.value.(delivery := Pending, owner := None, claimedAt := None)), true)
  }

  // --- runs ---

  /** `nextId` stands for the supply of fresh identifiers, `issued` for every claim ever handed out. */
  datatype Queue = Queue(records: seq<Rec>, nextId: nat, issued: set<Claim>)

  datatype Op =
    | OpEnqueue(input: Input, now: int, now': int)
    | OpClaim(parent: Parent, owner: Identity, limit: int, now: int)
    | OpAcknowledge(claim: Claim, now: int)
    | OpRelease(claim: Claim)
    | OpList(now: int)

  function Step(q: Queue, op: Op, c: Config): Queue {
    match op
    case OpEnqueue(input, now, now') =>
      q.(records := Enqueue(q.records, q.nextId, input, now, now', c).0, nextId := q.nextId + 1)
    case OpClaim(parent, owner, limit, now) =>
      if !ValidClaimer(parent, owner, limit) then q
      else
        var (records, claims) := ClaimLoop(Cleanup(q.records, now, c), parent, owner, limit, now, c);
        q.(records := records, issued := q.issued + set claim | claim in claims)
    case OpAcknowledge(claim, now) => q.(records := Acknowledge(q.records, claim, now).0)
    case OpRelease(claim) => q.(records := Release(q.records, claim).0)
    case OpList(now) => q.(records := Cleanup(q.records, now, c))
  }

  function Run(q: Queue, ops: seq<Op>, c: Config): Queue
    decreases |ops|
  {
    if ops == [] then q else Run(Step(q, ops[0], c), ops[1..], c)
  }

  function Get(q: Queue, id: nat): Option<Rec> { Lookup(q.records, id) }
}
