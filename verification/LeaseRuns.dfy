/** The turn-lease registry over every run of acquire, timeout, release, rebind and the evictions these cause. */
module LeaseRuns {
  import opened LeaseBook
  import opened LeaseSafety
  import opened LeaseSteps
  import opened LeaseTurns

  /** Leases and tokens are numbered; `next` is the next unused number. */
  datatype Registry = Registry(book: Book<nat, nat>, next: nat)

  datatype Event =
    | Acquires(k: Sid, now: int, later: int)
    | TimesOut(t: nat)
    | Releases(t: nat, now: int, later: int)
    | Rebinds(t: nat, k: Sid, now: int)

  const EMPTY := Registry(Book(map[], [], map[], map[], map[], map[], map[], map[]), 0)

  /** A caller can pass a token only after its promise resolved with it. */
  predicate HandedOut(b: Book<nat, nat>, t: nat) {
    t in b.status && (b.status[t] == Held || b.status[t] == LeaseBook.Released)
  }

  function Step(r: Registry, max: nat, e: Event): Registry {
    match e
    case Acquires(k, now, later) =>
      if !ValidIdentity(k) then r else Registry(Acquire(r.book, k, r.next, r.next, max, now, later), r.next + 1)
    case TimesOut(t) => r.(book := Expire(r.book, t))
    case Releases(t, now, later) => if HandedOut(r.book, t) then r.(book := Release(r.book, t, now, later).0) else r
    case Rebinds(t, k, now) => if HandedOut(r.book, t) then r.(book := Rebind(r.book, t, k, now).0) else r
  }

  function Run(r: Registry, max: nat, events: seq<Event>): Registry
    decreases |events|
  {
    if events == [] then r else Run(Step(r, max, events[0]), max, events[1..])
  }

  ghost predicate Below(r: Registry) {
    (forall l :: l in r.book.lease ==> l < r.next) && (forall t :: t in r.book.status ==> t < r.next)
  }

  ghost predicate RunInv(r: Registry) { Inv(r.book) && Below(r) }

  /** How a token's fate may develop: waiting is decided once, a timeout and a release are final. */
  predicate Follows(s: Status, s': Status) {
    match s
    case Waiting => true
    case TimedOut => s' == TimedOut
    case Held => s' == Held || s' == LeaseBook.Released
    case Released => s' == LeaseBook.Released
  }

  ghost predicate FatesFollow(b: Book<nat, nat>, c: Book<nat, nat>) {
    forall t :: t in b.status ==> t in c.status && Follows(b.status[t], c.status[t])
  }

  /** The same tokens and leases, and no fate undone. */
  ghost predicate Continues(b: Book<nat, nat>, c: Book<nat, nat>) {
    && (forall l :: l in c.lease ==> l in b.lease)
    && (forall t :: t in c.status ==> t in b.status)
    && FatesFollow(b, c)
  }

  lemma GetOrCreateLeases(b: Book<nat, nat>, k: Sid, l: nat, max: nat, now: int, m: nat)
    requires m in GetOrCreate(b, k, l, max, now).lease
    ensures m in b.lease || m == l
  {}

  lemma AcquireLeases(b: Book<nat, nat>, k: Sid, t: nat, l: nat, max: nat, now: int, later: int, m: nat)
    requires m in Acquire(b, k, t, l, max, now, later).lease
    ensures m in b.lease || m == l
  {
    var c := GetOrCreate(b, k, l, max, now);
    assert m in c.lease;
    GetOrCreateLeases(b, k, l, max, now, m);
  }

  lemma FreshToken(r: Registry, c: Book<nat, nat>)
    requires Below(r) && Inv(c)
        && (c.status == r.book.status[r.next := Held] || c.status == r.book.status[r.next := Waiting])
    requires forall m :: m in c.lease ==> m in r.book.lease || m == r.next
    ensures RunInv(Registry(c, r.next + 1)) && FatesFollow(r.book, c)
  {
    assert r.next !in r.book.status;
  }

  lemma AcquireBelow(r: Registry, k: Sid, max: nat, now: int, later: int)
    requires RunInv(r)
    ensures var r' := Registry(Acquire(r.book, k, r.next, r.next, max, now, later), r.next + 1);
            RunInv(r') && FatesFollow(r.book, r'.book)
  {
    var b, n := r.book, r.next;
    AcquireKeeps(b, k, n, n, max, now, later);
    forall m | m in Acquire(b, k, n, n, max, now, later).lease ensures m in b.lease || m == n {
      AcquireLeases(b, k, n, n, max, now, later, m);
    }
    FreshToken(r, Acquire(b, k, n, n, max, now, later));
  }

  lemma PassFates(b: Book<nat, nat>, t: nat, l: nat, now: int, later: int)
    requires l in b.lease && Anchored(b, l) && t in b.status && b.status[t] == Held
    ensures Continues(b, Pass(b, t, l, now, later))
  {
    var q := b.lease[l].queue;
    if q != [] { assert IsWaiting(b, q[0]); }
  }

  lemma ReleaseStep(b: Book<nat, nat>, t: nat, now: int, later: int)
    requires Inv(b) && HandedOut(b, t)
    ensures Inv(Release(b, t, now, later).0) && Continues(b, Release(b, t, now, later).0)
  {
    ReleaseKeeps(b, t, now, later);
    if b.status[t] == Held {
      ReleaseIsPass(b, t, now, later);
      assert Live(b, t);
      PassFates(b, t, b.leases[b.sid[t]], now, later);
    }
  }

  lemma ExpireStep(b: Book<nat, nat>, t: nat)
    requires Inv(b)
    ensures Inv(Expire(b, t)) && Continues(b, Expire(b, t))
  {
    ExpireKeeps(b, t);
  }

  lemma RebindStep(b: Book<nat, nat>, t: nat, k: Sid, now: int)
    requires Inv(b)
    ensures Inv(Rebind(b, t, k, now).0) && Continues(b, Rebind(b, t, k, now).0)
  {
    RebindKeeps(b, t, k, now);
  }

  lemma StepKeeps(r: Registry, max: nat, e: Event)
    requires RunInv(r)
    ensures RunInv(Step(r, max, e)) && FatesFollow(r.book, Step(r, max, e).book)
  {
    match e
    case Acquires(k, now, later) => if ValidIdentity(k) { AcquireBelow(r, k, max, now, later); }
    case TimesOut(t) => ExpireStep(r.book, t);
    case Releases(t, now, later) => if HandedOut(r.book, t) { ReleaseStep(r.book, t, now, later); }
    case Rebinds(t, k, now) => if HandedOut(r.book, t) { RebindStep(r.book, t, k, now); }
  }

  lemma {:induction false} RunKeeps(r: Registry, max: nat, events: seq<Event>)
    requires RunInv(r)
    ensures RunInv(Run(r, max, events)) && FatesFollow(r.book, Run(r, max, events).book)
    decreases |events|
  {
    if events != [] {
      var next := Step(r, max, events[0]);
      StepKeeps(r, max, events[0]);
      RunKeeps(next, max, events[1..]);
      FatesCompose(r.book, next.book, Run(next, max, events[1..]).book);
    }
  }

  lemma FatesCompose(a: Book<nat, nat>, b: Book<nat, nat>, c: Book<nat, nat>)
    requires FatesFollow(a, b) && FatesFollow(b, c)
    ensures FatesFollow(a, c)
  {
    forall t | t in a.status ensures t in c.status && Follows(a.status[t], c.status[t]) {
      assert Follows(a.status[t], b.status[t]) && Follows(b.status[t], c.status[t]);
    }
  }

  /**
   * Safety of every run: a token that was granted and not given back holds the lease its current session id leads to,
   * so no session id and no alias of one ever has two holders, and nobody waits for a lease without holder.
   */
  lemma TurnsAreExclusive(max: nat, events: seq<Event>)
    ensures var b := Run(EMPTY, max, events).book;
            && (forall t :: t in b.status && b.status[t] == Held ==> Holds(b, t))
            && (forall t, u :: t in b.status && u in b.status && b.status[t] == Held && b.status[u] == Held && t != u
                               ==>
                  t in b.sid && u in b.sid && b.sid[t] != b.sid[u])
            && (forall l :: l in b.lease && b.lease[l].holder.None? ==> b.lease[l].queue == [])
  {
    RunKeeps(EMPTY, max, events);
    var b := Run(EMPTY, max, events).book;
    forall t | t in b.status && b.status[t] == Held ensures Holds(b, t) { assert Live(b, t); }
    forall t, u | t in b.status && u in b.status && b.status[t] == Held && b.status[u] == Held && t != u
      ensures t in b.sid && u in b.sid && b.sid[t] != b.sid[u]
    {
      HoldersNeverShare(b, t, u);
      assert Live(b, t) && Live(b, u);
    }
    forall l | l in b.lease && b.lease[l].holder.None? ensures b.lease[l].queue == [] { assert Anchored(b, l); }
  }

  /**
   * Fairness of every run: per lease, the grants so far followed by the queue are the arrivals that did not time out.
   */
  lemma TurnsAreFair(max: nat, events: seq<Event>, l: nat)
    requires l in Run(EMPTY, max, events).book.lease
    ensures var b := Run(EMPTY, max, events).book;
            && l in b.arrived && l in b.granted
            && Survivors(b.arrived[l], b.status) == b.granted[l] + b.lease[l].queue
            && (forall t :: t in b.granted[l] ==> t in b.status && b.status[t] != TimedOut && b.status[t] != Waiting)
  {
    RunKeeps(EMPTY, max, events);
    assert Fair(Run(EMPTY, max, events).book, l);
  }
}
