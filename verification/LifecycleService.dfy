/** The service's two maps: retained records by instance, and their correlation index. */
module LifecycleService {
  import opened Basics
  import opened JsText
  import opened LifecycleSteps
  import opened LifecycleRecord

  datatype LaunchError = InvalidRequest | NoAdapter | DuplicateCorrelation | InstanceExists

  const NUL: CodeUnit := 0

  function OrEmpty(v: Option<Text>): Text { if v.Some? then v.value else [] }

  /** correlationKey: the three identities joined by NUL. */
  function Key(who: Identity): Text {
    OrEmpty(who.parentInstance) + [NUL] + OrEmpty(who.parentSession) + [NUL] + OrEmpty(who.correlationId)
  }

  /** What launch validation lets through for an optional identity. */
  predicate ValidIdentity(v: Option<Text>) { v.Some? ==> 1 <= |v.value| <= 512 }

  predicate ValidRequest(who: Identity) {
    && 1 <= |who.instanceId| <= 512
    && ValidIdentity(who.parentInstance) && ValidIdentity(who.parentSession) && ValidIdentity(who.correlationId)
  }

  /** The two identities before the correlation id; that one, being last, may hold anything. */
  predicate NulFree(who: Identity) {
    NUL !in OrEmpty(who.parentInstance) && NUL !in OrEmpty(who.parentSession)
  }

  /** Text as an optional identity. */
  function AsIdentity(v: Text): Option<Text> { if v == [] then None else Some(v) }

  /** Two NULs of the key, at `i` and `j`, that cut it into three parts a valid request could consist of. */
  predicate CutsAt(key: Text, i: nat, j: nat) {
    && i < j < |key| && key[i] == NUL && key[j] == NUL
    && i <= 512 && j - i - 1 <= 512 && |key| - j - 1 <= 512
  }

  /** The cut at which the request itself was joined. */
  function OwnCut(who: Identity): (nat, nat) {
    var i := |OrEmpty(who.parentInstance)|;
    (i, i + 1 + |OrEmpty(who.parentSession)|)
  }

  /** The request a cut of a key stands for. */
  function RequestOf(key: Text, i: nat, j: nat, instanceId: Text): Identity
    requires i < j < |key|
  {
    Identity(instanceId, AsIdentity(key[..i]), AsIdentity(key[i + 1..j]), AsIdentity(key[j + 1..]))
  }

  predicate SameRequest(a: Identity, b: Identity) {
    a.parentInstance == b.parentInstance && a.parentSession == b.parentSession && a.correlationId == b.correlationId
  }

  /** A valid request is what its own cut of its key stands for. */
  lemma OwnCutHolds(who: Identity)
    requires ValidRequest(who)
    ensures var (i, j) := OwnCut(who);
            CutsAt(Key(who), i, j) && SameRequest(RequestOf(Key(who), i, j, who.instanceId), who)
  {
    var (i, j) := OwnCut(who);
    var a, b, c := OrEmpty(who.parentInstance), OrEmpty(who.parentSession), OrEmpty(who.correlationId);
    var key := Key(who);
    assert key == a + [NUL] + b + [NUL] + c;
    assert key[..i] == a && key[i + 1..j] == b && key[j + 1..] == c;
  }

  /** Every cut of a key stands for a valid request with that key. */
  lemma CutIsRequest(key: Text, i: nat, j: nat, instanceId: Text)
    requires CutsAt(key, i, j) && 1 <= |instanceId| <= 512
    ensures var b := RequestOf(key, i, j, instanceId); ValidRequest(b) && Key(b) == key && OwnCut(b) == (i, j)
  {
    assert key == key[..i] + [NUL] + key[i + 1..j] + [NUL] + key[j + 1..];
  }

  lemma OtherRequestCuts(a: Identity, b: Identity)
    requires ValidRequest(a) && ValidRequest(b) && Key(b) == Key(a)
    ensures CutsAt(Key(a), OwnCut(b).0, OwnCut(b).1)
    ensures SameRequest(a, b) <==> OwnCut(a) == OwnCut(b)
  {
    OwnCutHolds(a);
    OwnCutHolds(b);
  }

  ghost predicate Collides(a: Identity) { exists b :: ValidRequest(b) && !SameRequest(a, b) && Key(b) == Key(a) }

  ghost predicate HasOtherCut(a: Identity) { exists i: nat, j: nat :: CutsAt(Key(a), i, j) && (i, j) != OwnCut(a) }

  /**
   * A valid request shares its key with a different valid request if and only if its key can be cut at another pair of
   * NULs. Validation does not exclude NUL, so such requests exist; a caller can decide it from the key.
   */
  lemma KeyCollidesIff(a: Identity)
    requires ValidRequest(a)
    ensures Collides(a) <==> HasOtherCut(a)
  {
    if Collides(a) {
      var b :| ValidRequest(b) && !SameRequest(a, b) && Key(b) == Key(a);
      OtherRequestCuts(a, b);
    }
    if HasOtherCut(a) {
      var i: nat, j: nat :| CutsAt(Key(a), i, j) && (i, j) != OwnCut(a);
      var b := RequestOf(Key(a), i, j, a.instanceId);
      CutIsRequest(Key(a), i, j, a.instanceId);
      OtherRequestCuts(a, b);
    }
  }

  lemma {:induction false} FirstNulAt(a: Text, x: Text)
    requires NUL !in a
    ensures IndexOf(a + [NUL] + x, NUL) == |a|
  {
    if a != [] {
      FirstNulAt(a[1..], x);
      assert (a + [NUL] + x)[1..] == a[1..] + [NUL] + x;
    }
  }

  lemma FirstNul(a: Text, b: Text, x: Text, y: Text)
    requires NUL !in a && NUL !in b && a + [NUL] + x == b + [NUL] + y
    ensures |a| == |b| && x == y
  {
    FirstNulAt(a, x);
    FirstNulAt(b, y);
    var s := a + [NUL] + x;
    assert s[|a| + 1..] == x && s[|b| + 1..] == y;
  }

  lemma KeySplits(who: Identity)
    ensures Key(who)
            == OrEmpty(who.parentInstance) + [NUL] + (OrEmpty(who.parentSession) + [NUL] + OrEmpty(who.correlationId))
  {}

  /** Without NUL in the parents the cut is at the first two NULs of the key. */
  lemma NulFreeCut(a: Identity, b: Identity)
    requires NulFree(a) && NulFree(b) && Key(a) == Key(b)
    ensures OwnCut(a) == OwnCut(b)
  {
    var a2, a3 := OrEmpty(a.parentSession), OrEmpty(a.correlationId);
    var b2, b3 := OrEmpty(b.parentSession), OrEmpty(b.correlationId);
    KeySplits(a);
    KeySplits(b);
    FirstNul(OrEmpty(a.parentInstance), OrEmpty(b.parentInstance), a2 + [NUL] + a3, b2 + [NUL] + b3);
    FirstNul(a2, b2, a3, b3);
  }

  /** For valid requests whose parents hold no NUL the key identifies parents and correlation id. */
  lemma KeyInjective(a: Identity, b: Identity)
    requires ValidRequest(a) && ValidRequest(b) && NulFree(a) && NulFree(b)
    ensures Key(a) == Key(b) <==> SameRequest(a, b)
  {
    if Key(a) == Key(b) {
      NulFreeCut(a, b);
      OtherRequestCuts(a, b);
    }
  }

  /**
   * A NUL in the parent session, and likewise one in the parent instance, gives such a second cut when its parts fit.
   */
  lemma KeyCollides(a: Identity, x: Text, y: Text)
    requires ValidRequest(a)
    ensures OrEmpty(a.parentSession) == x + [NUL] + y && |y| + 1 + |OrEmpty(a.correlationId)| <= 512 ==>
              var i := OwnCut(a).0; CutsAt(Key(a), i, i + 1 + |x|) && (i, i + 1 + |x|) != OwnCut(a)
    ensures OrEmpty(a.parentInstance) == x + [NUL] + y && |y| + 1 + |OrEmpty(a.parentSession)| <= 512 ==>
              CutsAt(Key(a), |x|, OwnCut(a).1) && (|x|, OwnCut(a).1) != OwnCut(a)
  {
    var a1, a2, a3 := OrEmpty(a.parentInstance), OrEmpty(a.parentSession), OrEmpty(a.correlationId);
    OwnCutHolds(a);
    assert Key(a) == a1 + [NUL] + a2 + [NUL] + a3;
    assert a2 == x + [NUL] + y ==> Key(a)[|a1| + 1 + |x|] == NUL;
    assert a1 == x + [NUL] + y ==> Key(a)[|x|] == NUL;
  }

  /** The index maps exactly the keys of the retained records that carry a correlation id, each to its own. */
  ghost predicate Indexed(records: map<Text, Record>, correlations: map<Text, Text>) {
    && (forall id :: id in records ==> records[id].who.instanceId == id)
    && (forall id :: id in records && records[id].who.correlationId.Some? ==>
          Key(records[id].who) in correlations && correlations[Key(records[id].who)] == id)
    && (forall key :: key in correlations ==> PointsBack(records, correlations[key], key))
  }

  ghost predicate PointsBack(records: map<Text, Record>, id: Text, key: Text) {
    id in records && records[id].who.correlationId.Some? && Key(records[id].who) == key
  }

  lemma RemoveIndexed(records: map<Text, Record>, correlations: map<Text, Text>, id: Text)
    requires Indexed(records, correlations) && id in records
    ensures var who := records[id].who;
            Indexed(records - {id}, if who.correlationId.Some? then correlations - {Key(who)} else correlations)
  {}

  lemma AddIndexed(records: map<Text, Record>, correlations: map<Text, Text>, r: Record)
    requires Indexed(records, correlations) && r.who.instanceId !in records
    requires r.who.correlationId.Some? ==> Key(r.who) !in correlations
    ensures Indexed(records[r.who.instanceId := r],
                    if r.who.correlationId.Some? then correlations[Key(r.who) := r.who.instanceId] else correlations)
  {}

  class Service {
    const terminalRetentionMs: nat
    var records: map<Text, Record>
    var correlations: map<Text, Text>

    constructor (terminalRetentionMs: nat)
      ensures Valid() && records == map[] && this.terminalRetentionMs == terminalRetentionMs
    {
      this.terminalRetentionMs, records, correlations := terminalRetentionMs, map[], map[];
    }

    ghost predicate Valid()
      reads this
    {
      Indexed(records, correlations)
    }

    ghost predicate Expired(r: Record, now: int)
      reads r
    {
      r.completedAt.Some? && r.completedAt.value < now - terminalRetentionMs
    }

    method CleanupExpired(now: int)
      requires Valid()
      modifies this`records, this`correlations
      ensures Valid()
      ensures forall id :: id in records <==> id in old(records) && !old(Expired(records[id], now))
      ensures forall id :: id in records ==> records[id] == old(records)[id]
    {
      var cutoff := now - terminalRetentionMs;
      ghost var was := records;
      var todo := records.Keys;
      while todo != {}
        invariant Valid() && todo <= records.Keys <= was.Keys
        invariant forall id :: id in records ==> records[id] == was[id]
        invariant forall id :: id in was && id !in todo ==> (id in records <==> !Expired(was[id], now))
        decreases todo
      {
        var id :| id in todo;
        todo := todo - {id};
        var r := records[id];
        if r.completedAt.None? || r.completedAt.value >= cutoff { continue; }
        RemoveIndexed(records, correlations, id);
        records := records - {id};
        if r.who.correlationId.Some? { correlations := correlations - {Key(r.who)}; }
      }
    }

    /** A retained record, not expired at `now`, already carries this key. */
    ghost predicate Taken(key: Text, now: int)
      requires Valid()
      reads this, records.Values
    {
      exists id :: id in records && !Expired(records[id], now)
        && records[id].who.correlationId.Some? && Key(records[id].who) == key
    }

    /** launch: refused as duplicate exactly when a retained record already carries the same key. */
    method Launch(who: Identity, requestOk: bool, hasAdapter: bool, now: int)
      returns (reply: Result<Record, LaunchError>)
      requires Valid()
      modifies this`records, this`correlations
      ensures Valid()
      ensures reply == Err(InvalidRequest) <==> !requestOk || !ValidRequest(who)
      ensures reply == Err(NoAdapter) <==> requestOk && ValidRequest(who) && !hasAdapter
      ensures reply == Err(DuplicateCorrelation) <==>
        requestOk && ValidRequest(who) && hasAdapter && who.correlationId.Some? && old(Taken(Key(who), now))
      ensures reply == Err(InstanceExists) <==>
        && requestOk && ValidRequest(who) && hasAdapter && !(who.correlationId.Some? && old(Taken(Key(who), now)))
        && who.instanceId in old(records) && !old(Expired(records[who.instanceId], now))
      ensures reply.Ok? <==>
        && requestOk && ValidRequest(who) && hasAdapter && !(who.correlationId.Some? && old(Taken(Key(who), now)))
        && !(who.instanceId in old(records) && !old(Expired(records[who.instanceId], now)))
      ensures reply.Ok? ==> fresh(reply.value) && reply.value.View() == Launched(who)
      ensures reply == Err(InvalidRequest) ==> records == old(records)
      ensures reply != Err(InvalidRequest) ==>
        (forall id :: id in records <==>
           (id in old(records) && !old(Expired(records[id], now))) || (reply.Ok? && id == who.instanceId))
      ensures forall id :: id in records ==>
        records[id] == if reply.Ok? && id == who.instanceId then reply.value else old(records)[id]
    {
      if !requestOk || !ValidRequest(who) { return Err(InvalidRequest); }
      CleanupExpired(now);
      if !hasAdapter { return Err(NoAdapter); }
      if who.correlationId.Some? && Key(who) in correlations { return Err(DuplicateCorrelation); }
      if who.instanceId in records { return Err(InstanceExists); }
      var record := new Record(who);
      AddIndexed(records, correlations, record);
      records := records[who.instanceId := record];
      if who.correlationId.Some? { correlations := correlations[Key(who) := who.instanceId]; }
      return Ok(record);
    }
  }
}
