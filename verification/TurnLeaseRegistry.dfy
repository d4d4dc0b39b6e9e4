/**
 * The registry as an object. Lease and token objects are named by the numbers `LeaseRuns` gives them, so two keys that
 * alias one lease object map to one number; their fields are the maps `lease`, `sid`, `status` and `home`.
 */
module TurnLeaseRegistry {
  import opened Basics
  import opened LeaseBook
  import opened LeaseRuns

  class SessionTurnLeaseRegistry {
    const maxEntries: nat
    var leases: map<Sid, nat>
    var order: seq<Sid>
    var lease: map<nat, Lease<nat>>
    var sid: map<nat, Sid>
    var status: map<nat, Status>
    var home: map<nat, nat>
    var next: nat
    ghost var arrived: map<nat, seq<nat>>
    ghost var granted: map<nat, seq<nat>>

    ghost function Book(): Book<nat, nat>
      reads this
    {
      LeaseBook.Book(leases, order, lease, sid, status, home, arrived, granted)
    }

    ghost function View(): Registry
      reads this
    {
      Registry(Book(), next)
    }

    constructor (max: nat)
      requires max >= 1
      ensures View() == EMPTY && maxEntries == max
    {
      maxEntries, leases, order, lease := max, map[], [], map[];
      sid, status, home, next, arrived, granted := map[], map[], map[], 0, map[], map[];
    }

    /** grantNext: waiters that were settled meanwhile are skipped. */
    method GrantNext(l: nat, now: int)
      requires l in lease
      modifies `lease, `status, `granted
      ensures Book() == LeaseBook.GrantNext(old(Book()), l, now)
    {
      while lease[l].queue != []
        invariant l in lease && status == old(status) && granted == old(granted)
        invariant LeaseBook.GrantNext(Book(), l, now) == LeaseBook.GrantNext(old(Book()), l, now)
        decreases |lease[l].queue|
      {
        ghost var before := lease;
        var waiter := lease[l].queue[0];
        lease := lease[l := lease[l].(queue := lease[l].queue[1..])];
        if waiter in status && status[waiter] == Waiting {
          status := status[waiter := Held];
          lease := lease[l := lease[l].(holder := Some(waiter), lastUsed := now)];
          granted := granted[l := Trail(granted, l) + [waiter]];
          assert lease == before[l := lease[l]];
          return;
        }
      }
    }

    /** release; undefined and tokens this registry did not hand out are answered with false. */
    method Release(token: Option<nat>, now: int, later: int) returns (ok: bool)
      requires token.Some? && token.value in status ==> HandedOut(Book(), token.value)
      modifies `lease, `status, `granted
      ensures token.None? ==> !ok && View() == old(View())
      ensures token.Some? ==> (Book(), ok) == LeaseBook.Release(old(Book()), token.value, now, later)
      ensures token.Some? ==> View() == Step(old(View()), maxEntries, Releases(token.value, now, later))
    {
      if token.None? || token.value !in status { return false; }
      var t := token.value;
      if status[t] == LeaseBook.Released { return false; }
      status := status[t := LeaseBook.Released];
      if t !in sid || sid[t] !in leases || leases[sid[t]] !in lease { return false; }
      var l := leases[sid[t]];
      if lease[l].holder != Some(t) { return false; }
      lease := lease[l := lease[l].(holder := None, lastUsed := now)];
      GrantNext(l, later);
      ok := true;
    }

    /** The token's lease, when the token holds the lease its session id leads to. */
    function HeldLease(t: nat): Option<nat>
      reads this
    {
      if t in sid && sid[t] in leases && leases[sid[t]] in lease && lease[leases[sid[t]]].holder == Some(t)
      then Some(leases[sid[t]]) else None
    }

    /** rebind; an id of more than 512 characters throws unless the call is refused before. */
    method Rebind(token: Option<nat>, k: Sid, now: int) returns (ok: bool, threw: bool)
      requires token.Some? && token.value in status ==> HandedOut(Book(), token.value)
      modifies `leases, `order, `lease, `sid
      ensures token.None? ==> !ok && !threw && View() == old(View())
      ensures token.Some? ==> (Book(), ok) == LeaseBook.Rebind(old(Book()), token.value, k, now)
      ensures token.Some? ==> View() == Step(old(View()), maxEntries, Rebinds(token.value, k, now))
      ensures threw <==> |k| > 512 && token.Some? && token.value in old(status) && token.value in old(sid)
                         && old(status)[token.value] != LeaseBook.Released && old(sid)[token.value] != k
    {
      ok, threw := false, false;
      if token.None? || token.value !in status || token.value !in sid { return; }
      var t := token.value;
      if status[t] == LeaseBook.Released || k == [] || sid[t] == k { return; }
      if |k| > 512 { return false, true; }
      var held := HeldLease(t);
      if held.None? { return; }
      var l := held.value;
      if k in leases && leases[k] != l {
        var idle := IsIdle(leases[k], lease, status, Book());
        if !idle { return; }
      }
      if k !in leases { order := order + [k]; }
      leases := leases[k := l];
      lease := lease[l := lease[l].(lastUsed := now)];
      sid := sid[t := k];
      ok := true;
    }

    method EvictIdle()
      modifies `leases, `order
      ensures Book() == Remove(old(Book()), Victims(old(Book()), maxEntries))
    {
      var victims := LeastRecentlyUsed(leases, order, lease, status, maxEntries, Book());
      leases := leases - KeySet(victims);
      order := Kept(order, victims);
    }

    method Create(k: Sid, now: int) returns (l: nat)
      requires k !in leases
      modifies `leases, `order, `lease, `arrived, `granted
      ensures Book() == LeaseBook.Create(old(Book()), k, next, now) && l == next
    {
      l := next;
      leases, order := leases[k := l], order + [k];
      lease := lease[l := Lease(None, [], now)];
      arrived, granted := arrived[l := []], granted[l := []];
    }

    method GetOrCreate(k: Sid, now: int) returns (l: nat)
      modifies `leases, `order, `lease, `arrived, `granted
      ensures Book() == LeaseBook.GetOrCreate(old(Book()), k, next, maxEntries, now)
      ensures k in leases && leases[k] == l
    {
      if k in leases {
        l := leases[k];
        if l in lease { lease := lease[l := lease[l].(lastUsed := now)]; }
        return;
      }
      EvictIdle();
      l := Create(k, now);
    }

    /** The token becomes the holder at once. */
    method Hold(k: Sid, t: nat, l: nat, now: int)
      requires l in lease
      modifies `lease, `sid, `status, `home
      ensures Book() == LeaseBook.Hold(old(Book()), k, t, l, now)
    {
      lease := lease[l := lease[l].(holder := Some(t), lastUsed := now)];
      sid, status, home := sid[t := k], status[t := Held], home[t := l];
    }

    /** The token queues up. */
    method Enqueue(k: Sid, t: nat, l: nat)
      requires l in lease
      modifies `lease, `sid, `status, `home, `arrived
      ensures Book() == LeaseBook.Enqueue(old(Book()), k, t, l)
    {
      lease := lease[l := lease[l].(queue := lease[l].queue + [t])];
      sid, status, home := sid[t := k], status[t := Waiting], home[t := l];
      arrived := arrived[l := Trail(arrived, l) + [t]];
    }

    /** acquire up to its await: the token of a new promise, or the argument is refused. */
    method Acquire(k: Sid, ownerId: Sid, generation: int, timeoutMs: int, now: int, later: int) returns (r: Option<nat>)
      modifies this
      ensures r.Some? <==> ValidIdentity(k) && ValidIdentity(ownerId) && generation >= 1 && timeoutMs >= 0
      ensures r.Some? ==> r.value == old(next) && View() == Step(old(View()), maxEntries, Acquires(k, now, later))
      ensures r.None? ==> View() == old(View())
    {
      if !ValidIdentity(k) || !ValidIdentity(ownerId) || generation < 1 || timeoutMs < 0 { return None; }
      var t := next;
      var l := GetOrCreate(k, now);
      if l in lease {
        if lease[l].holder.None? {
          Hold(k, t, l, later);
        } else {
          Enqueue(k, t, l);
        }
      }
      next := next + 1;
      r := Some(t);
    }

    /** A waiter's timer. */
    method OnTimeout(t: nat)
      modifies `lease, `status
      ensures View() == Step(old(View()), maxEntries, TimesOut(t))
    {
      if t !in status || status[t] != Waiting || t !in home || home[t] !in lease { return; }
      var l := home[t];
      status := status[t := TimedOut];
      var q := Splice(lease[l].queue, t);
      lease := lease[l := lease[l].(queue := q)];
    }
  }

  /** No holder, and `some` over the waiters finds none that is unsettled. */
  method IsIdle(l: nat, lease: map<nat, Lease<nat>>, status: map<nat, Status>, ghost b: Book<nat, nat>)
    returns (idle: bool)
    requires b.lease == lease && b.status == status
    ensures idle == Idle(b, l)
  {
    if l !in lease { return true; }
    if lease[l].holder.Some? { return false; }
    var q := lease[l].queue;
    for i := 0 to |q|
      invariant forall j :: 0 <= j < i ==> !IsWaiting(b, q[j])
    {
      if q[i] in status && status[q[i]] == Waiting {
        assert IsWaiting(b, q[i]) && q[i] in q;
        return false;
      }
    }
    idle := true;
  }

  /** The idle keys in map order: filter over the entries. */
  method IdleKeys(leases: map<Sid, nat>, order: seq<Sid>, lease: map<nat, Lease<nat>>, status: map<nat, Status>,
                  ghost b: Book<nat, nat>)
    returns (idle: seq<Sid>)
    requires b.leases == leases && b.lease == lease && b.status == status
    ensures idle == Filter(order, k => IdleKey(b, k))
  {
    ghost var p := k => IdleKey(b, k);
    idle := [];
    for i := 0 to |order|
      invariant idle == Filter(order[..i], p)
    {
      assert order[..i + 1] == order[..i] + [order[i]];
      FilterAppend(order[..i], order[i], p);
      if order[i] in leases {
        var free := IsIdle(leases[order[i]], lease, status, b);
        if free { idle := idle + [order[i]]; }
      }
    }
    assert order[..|order|] == order;
  }

  /** The idle keys sorted by last use. */
  method SortedIdle(leases: map<Sid, nat>, order: seq<Sid>, lease: map<nat, Lease<nat>>, status: map<nat, Status>,
                    ghost b: Book<nat, nat>)
    returns (sorted: seq<Sid>)
    requires b.leases == leases && b.order == order && b.lease == lease && b.status == status
    ensures sorted == Candidates(b)
  {
    var idle := IdleKeys(leases, order, lease, status, b);
    var use := k => if k in leases && leases[k] in lease then lease[leases[k]].lastUsed else 0;
    sorted := SortByUse(idle, use);
    SortSame(idle, use, k => LastUse(b, k));
  }

  /** The keys evictIdle deletes: as many of these as overflow. */
  method LeastRecentlyUsed(leases: map<Sid, nat>, order: seq<Sid>, lease: map<nat, Lease<nat>>,
                           status: map<nat, Status>, max: nat, ghost b: Book<nat, nat>)
    returns (victims: seq<Sid>)
    requires b.leases == leases && b.order == order && b.lease == lease && b.status == status
    ensures victims == Victims(b, max)
  {
    var overflow := |leases| - max + 1;
    if overflow <= 0 { return []; }
    var sorted := SortedIdle(leases, order, lease, status, b);
    victims := if overflow < |sorted| then sorted[..overflow] else sorted;
  }

  /** indexOf and splice. */
  method Splice(q: seq<nat>, t: nat) returns (r: seq<nat>)
    ensures r == Without(q, t)
  {
    var i := 0;
    while i < |q| && q[i] != t
      invariant i <= |q| && t !in q[..i] && Without(q, t) == q[..i] + Without(q[i..], t)
    {
      Assoc(q[..i], [q[i]], Without(q[i + 1..], t));
      assert q[i..][1..] == q[i + 1..] && q[..i + 1] == q[..i] + [q[i]];
      i := i + 1;
    }
    if i == |q| {
      assert q[..i] == q && q[i..] == [];
      return q;
    }
    assert q[i..][1..] == q[i + 1..];
    r := q[..i] + q[i + 1..];
  }

  lemma {:induction false} FilterAppend(s: seq<Sid>, k: Sid, p: Sid -> bool)
    ensures Filter(s + [k], p) == Filter(s, p) + if p(k) then [k] else []
  {
    if s != [] {
      FilterAppend(s[1..], k, p);
      assert (s + [k])[1..] == s[1..] + [k];
      Assoc(if p(s[0]) then [s[0]] else [], Filter(s[1..], p), if p(k) then [k] else []);
    }
  }

  lemma {:induction false} InsertSame(k: Sid, s: seq<Sid>, f: Sid -> int, g: Sid -> int)
    requires forall x :: f(x) == g(x)
    ensures InsertByUse(k, s, f) == InsertByUse(k, s, g)
  {
    if s != [] { InsertSame(k, s[1..], f, g); }
  }

  /** The sort depends on the values of the key function only. */
  lemma {:induction false} SortSame(s: seq<Sid>, f: Sid -> int, g: Sid -> int)
    requires forall x :: f(x) == g(x)
    ensures SortByUse(s, f) == SortByUse(s, g)
  {
    if s != [] {
      SortSame(s[1..], f, g);
      InsertSame(s[0], SortByUse(s[1..], f), f, g);
    }
  }
}
