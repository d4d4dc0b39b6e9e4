/** Timeouts, releases and rebinds keep the invariant too. */
module LeaseTurns {
  import opened Basics
  import opened LeaseBook
  import opened LeaseSafety
  import opened LeaseSteps

  // --- timeout ---

  lemma TailOf<T>(s: seq<T>)
    requires NoDup(s) && s != []
    ensures NoDup(s[1..]) && s[0] !in s[1..] && forall x :: x in s <==> x == s[0] || x in s[1..]
  {
    assert s == [s[0]] + s[1..];
  }

  lemma {:induction false} WithoutOf<T>(s: seq<T>, t: T)
    requires NoDup(s)
    ensures NoDup(Without(s, t)) && forall x :: x in Without(s, t) <==> x in s && x != t
  {
    if s != [] {
      TailOf(s);
      WithoutOf(s[1..], t);
    }
  }

  lemma {:induction false} WithoutIn<T>(s: seq<T>, t: T, x: T)
    requires NoDup(s)
    ensures x in Without(s, t) <==> x in s && x != t
  {
    if s != [] {
      TailOf(s);
      WithoutIn(s[1..], t, x);
    }
  }

  lemma {:induction false} WithoutAppend<T>(a: seq<T>, b: seq<T>, t: T)
    requires t !in a
    ensures Without(a + b, t) == a + Without(b, t)
  {
    if a == [] {
      assert a + b == b;
    } else {
      WithoutAppend(a[1..], b, t);
      assert (a + b)[1..] == a[1..] + b && (a + b)[0] == a[0];
    }
  }

  lemma {:induction false} SurvivorsExpire<T>(s: seq<T>, st: map<T, Status>, t: T)
    requires NoDup(s) && t in st && st[t] != TimedOut
    ensures Survivors(s, st[t := TimedOut]) == Without(Survivors(s, st), t)
  {
    if s != [] {
      TailOf(s);
      var rest := Survivors(s[1..], st);
      assert ([s[0]] + rest)[1..] == rest;
      if s[0] == t {
        SameSurvivors(s[1..], st, st[t := TimedOut]);
      } else {
        SurvivorsExpire(s[1..], st, t);
        assert [] + rest == rest && [] + Without(rest, t) == Without(rest, t);
        assert Without([s[0]] + rest, t) == [s[0]] + Without(rest, t);
      }
    }
  }

  lemma ExpireFair<L, T>(b: Book<L, T>, t: T, m: L)
    requires IsWaiting(b, t) && t in b.home && b.home[t] in b.lease
    requires m in b.lease && Anchored(b, m) && Fair(b, m)
    ensures Fair(Expire(b, t), m)
  {
    var c := Expire(b, t);
    if m == b.home[t] {
      SurvivorsExpire(b.arrived[m], b.status, t);
      WithoutAppend(b.granted[m], b.lease[m].queue, t);
    } else {
      SameSurvivors(b.arrived[m], b.status, c.status);
    }
  }

  lemma ExpireLease<L, T>(b: Book<L, T>, t: T, m: L)
    requires IsWaiting(b, t) && t in b.home && b.home[t] in b.lease
    requires m in b.lease && Anchored(b, m)
    ensures Anchored(Expire(b, t), m)
  {
    var c := Expire(b, t);
    WithoutOf(b.lease[m].queue, t);
    if m != b.home[t] {
      SameAnchors(b, c, m);
    } else {
      assert c.lease[m].queue == Without(b.lease[m].queue, t) && c.status == b.status[t := TimedOut];
      forall u | u in c.lease[m].queue ensures IsWaiting(c, u) && At(c, u, m) && u in c.home && c.home[u] == m {
        WithoutIn(b.lease[m].queue, t, u);
        assert IsWaiting(b, u) && At(b, u, m);
      }
    }
  }

  lemma ExpireToken<L, T>(b: Book<L, T>, t: T, u: T)
    requires IsWaiting(b, t) && t in b.home && b.home[t] in b.lease && NoDup(b.lease[b.home[t]].queue)
    requires u in b.status && Live(b, u)
    ensures Live(Expire(b, t), u)
  {
    WithoutOf(b.lease[b.home[t]].queue, t);
  }

  lemma ExpireKeeps<L, T>(b: Book<L, T>, t: T)
    requires Inv(b)
    ensures Inv(Expire(b, t))
    ensures Expire(b, t).status == if IsWaiting(b, t) then b.status[t := TimedOut] else b.status
  {
    if IsWaiting(b, t) {
      assert Live(b, t);
      var c := Expire(b, t);
      assert Anchored(b, b.home[t]);
      forall m | m in c.lease ensures Anchored(c, m) && Fair(c, m) { ExpireLease(b, t, m); ExpireFair(b, t, m); }
      forall u | u in c.status ensures Live(c, u) { ExpireToken(b, t, u); }
    }
  }

  // --- release ---

  /** A release by the holder: the lease goes to the head of the queue, or to nobody. */
  function Pass<L, T>(b: Book<L, T>, t: T, l: L, now: int, later: int): Book<L, T>
    requires l in b.lease
  {
    var q := b.lease[l].queue;
    if q == [] then b.(lease := b.lease[l := Lease(None, [], now)], status := b.status[t := LeaseBook.Released])
    else b.(lease := b.lease[l := Lease(Some(q[0]), q[1..], later)],
            status := b.status[t := LeaseBook.Released][q[0] := Held],
            granted := b.granted[l := Trail(b.granted, l) + [q[0]]])
  }

  lemma ReleaseIsPass<L, T>(b: Book<L, T>, t: T, now: int, later: int)
    requires Inv(b) && t in b.status && b.status[t] == Held
    ensures Holds(b, t) && Release(b, t, now, later) == (Pass(b, t, b.leases[b.sid[t]], now, later), true)
  {
    assert Live(b, t);
    var l := b.leases[b.sid[t]];
    assert Anchored(b, l);
    GrantHead(b, t, l, now, later);
  }

  lemma GrantHead<L, T>(b: Book<L, T>, t: T, l: L, now: int, later: int)
    requires l in b.lease && Anchored(b, l) && b.lease[l].holder == Some(t)
    ensures GrantNext(b.(status := b.status[t := LeaseBook.Released],
                         lease := b.lease[l := b.lease[l].(holder := None, lastUsed := now)]), l, later)
         == Pass(b, t, l, now, later)
  {
    var q := b.lease[l].queue;
    var st := b.status[t := LeaseBook.Released];
    if q != [] {
      assert IsWaiting(b, q[0]) && q[0] != t;
      assert b.lease[l := Lease(None, q, now)][l := Lease(Some(q[0]), q[1..], later)]
          == b.lease[l := Lease(Some(q[0]), q[1..], later)];
    }
  }

  lemma PassFair<L, T>(b: Book<L, T>, t: T, l: L, now: int, later: int, m: L)
    requires l in b.lease && Anchored(b, l) && b.lease[l].holder == Some(t) && m in b.lease && Fair(b, m)
    ensures Fair(Pass(b, t, l, now, later), m)
  {
    var c := Pass(b, t, l, now, later);
    SameSurvivors(b.arrived[m], b.status, c.status);
    if m == l && b.lease[l].queue != [] {
      var q := b.lease[l].queue;
      Assoc(b.granted[l], [q[0]], q[1..]);
      assert q == [q[0]] + q[1..];
    }
  }

  lemma PassLease<L, T>(b: Book<L, T>, t: T, l: L, now: int, later: int, m: L)
    requires l in b.lease && Anchored(b, l) && b.lease[l].holder == Some(t) && m in b.lease && Anchored(b, m)
    ensures Anchored(Pass(b, t, l, now, later), m)
  {
    var c := Pass(b, t, l, now, later);
    if m != l { SameAnchors(b, c, m); }
    else if b.lease[l].queue != [] { TailOf(b.lease[l].queue); }
  }

  lemma PassToken<L, T>(b: Book<L, T>, t: T, l: L, now: int, later: int, u: T)
    requires l in b.lease && Anchored(b, l) && b.lease[l].holder == Some(t) && u in b.status && Live(b, u)
    ensures Live(Pass(b, t, l, now, later), u)
  {}

  lemma PassKeys<L, T>(b: Book<L, T>, t: T, l: L, now: int, later: int)
    requires l in b.lease && Anchored(b, l) && b.lease[l].holder == Some(t) && t in b.status
    ensures var c := Pass(b, t, l, now, later); c.status.Keys == b.status.Keys && c.lease.Keys == b.lease.Keys
  {
    var q := b.lease[l].queue;
    if q != [] { assert IsWaiting(b, q[0]); }
  }

  lemma PassKeeps<L, T>(b: Book<L, T>, t: T, l: L, now: int, later: int)
    requires Inv(b) && l in b.lease && b.lease[l].holder == Some(t) && t in b.status
    ensures Inv(Pass(b, t, l, now, later))
  {
    var c := Pass(b, t, l, now, later);
    assert Anchored(b, l);
    PassKeys(b, t, l, now, later);
    forall m | m in b.lease ensures Anchored(c, m) && Fair(c, m) {
      assert Anchored(b, m) && Fair(b, m);
      PassLease(b, t, l, now, later, m);
      PassFair(b, t, l, now, later, m);
    }
    forall u | u in b.status ensures Live(c, u) {
      assert Live(b, u);
      PassToken(b, t, l, now, later, u);
    }
  }

  lemma ReleaseKeeps<L, T>(b: Book<L, T>, t: T, now: int, later: int)
    requires Inv(b) && t in b.status && b.status[t] in {Held, LeaseBook.Released}
    ensures Inv(Release(b, t, now, later).0) && (Release(b, t, now, later).1 <==> b.status[t] == Held)
  {
    if b.status[t] == Held {
      ReleaseIsPass(b, t, now, later);
      PassKeeps(b, t, b.leases[b.sid[t]], now, later);
    }
  }

  // --- rebind ---

  ghost predicate Free<L, T>(b: Book<L, T>, k: Sid, l: L) {
    k in b.leases && b.leases[k] != l ==> Idle(b, b.leases[k])
  }

  function Moved<L, T>(b: Book<L, T>, t: T, k: Sid, l: L, now: int): Book<L, T>
    requires l in b.lease
  {
    Touch(Bind(b, k, l), l, now).(sid := b.sid[t := k])
  }

  lemma MovedAt<L, T>(b: Book<L, T>, t: T, k: Sid, l: L, now: int, u: T, m: L)
    requires l in b.lease && Free(b, k, l) && At(b, t, l) && At(b, u, m) && !Idle(b, m)
    ensures At(Moved(b, t, k, l, now), u, m)
  {}

  lemma MovedLease<L, T>(b: Book<L, T>, t: T, k: Sid, l: L, now: int, m: L)
    requires l in b.lease && Free(b, k, l) && At(b, t, l) && m in b.lease && Anchored(b, m)
    ensures Anchored(Moved(b, t, k, l, now), m)
  {
    var x := b.lease[m];
    if x.holder.Some? {
      MovedAt(b, t, k, l, now, x.holder.value, m);
      forall u | u in x.queue ensures At(Moved(b, t, k, l, now), u, m) { MovedAt(b, t, k, l, now, u, m); }
    }
  }

  lemma MovedToken<L, T>(b: Book<L, T>, t: T, k: Sid, l: L, now: int, u: T)
    requires l in b.lease && Free(b, k, l) && At(b, t, l) && u in b.status && Live(b, u)
    ensures Live(Moved(b, t, k, l, now), u)
  {
    if b.status[u] == Held { MovedAt(b, t, k, l, now, u, b.leases[b.sid[u]]); }
  }

  lemma MovedKeyed<L, T>(b: Book<L, T>, t: T, k: Sid, l: L, now: int)
    requires Keyed(b) && l in b.lease
    ensures Keyed(Moved(b, t, k, l, now))
  {
    if k !in b.leases { NoDupAppend(b.order, k); }
  }

  /** Rebinding keeps every waiter anchored, including those that queued under the old session id. */
  lemma RebindKeeps<L, T>(b: Book<L, T>, t: T, k: Sid, now: int)
    requires Inv(b)
    ensures Inv(Rebind(b, t, k, now).0) && Rebind(b, t, k, now).0.status == b.status
    ensures Rebind(b, t, k, now).1 ==> Rebind(b, t, k, now).0.leases[k] == b.leases[b.sid[t]]
  {
    if Rebind(b, t, k, now).1 {
      var l := b.leases[b.sid[t]];
      var c := Moved(b, t, k, l, now);
      MovedKeyed(b, t, k, l, now);
      forall m | m in c.lease ensures Anchored(c, m) && Fair(c, m) {
        assert Fair(b, m);
        MovedLease(b, t, k, l, now, m);
      }
      forall u | u in c.status ensures Live(c, u) { MovedToken(b, t, k, l, now, u); }
    }
  }
}
