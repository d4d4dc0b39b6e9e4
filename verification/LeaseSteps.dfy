/** Each operation of the registry keeps the invariant. */
module LeaseSteps {
  import opened Basics
  import opened LeaseBook
  import opened LeaseSafety

  // --- touch and create ---

  lemma TouchKeeps<L, T>(b: Book<L, T>, l: L, now: int)
    requires Inv(b) && l in b.lease
    ensures Inv(Touch(b, l, now))
  {
    var c := Touch(b, l, now);
    forall m | m in c.lease ensures Anchored(c, m) && Fair(c, m) { TouchLease(b, l, now, m); }
    forall t | t in c.status ensures Live(c, t) { TouchToken(b, l, now, t); }
  }

  lemma TouchLease<L, T>(b: Book<L, T>, l: L, now: int, m: L)
    requires l in b.lease && m in b.lease && Anchored(b, m) && Fair(b, m)
    ensures Anchored(Touch(b, l, now), m) && Fair(Touch(b, l, now), m)
  {}

  lemma TouchToken<L, T>(b: Book<L, T>, l: L, now: int, t: T)
    requires l in b.lease && t in b.status && Live(b, t)
    ensures Live(Touch(b, l, now), t)
  {}

  lemma NoDupAppend<T>(s: seq<T>, t: T)
    requires NoDup(s) && t !in s
    ensures NoDup(s + [t]) && forall x :: x in s + [t] <==> x in s || x == t
  {}

  lemma CreateKeyed<L, T>(b: Book<L, T>, k: Sid, l: L, now: int)
    requires Keyed(b) && k !in b.leases
    ensures Keyed(Create(b, k, l, now))
  {
    NoDupAppend(b.order, k);
  }

  lemma CreatedLease<L, T>(b: Book<L, T>, k: Sid, l: L, now: int)
    ensures Anchored(Create(b, k, l, now), l) && Fair(Create(b, k, l, now), l)
  {}

  lemma CreateLease<L, T>(b: Book<L, T>, k: Sid, l: L, now: int, m: L)
    requires k !in b.leases && l !in b.lease && m in b.lease && Anchored(b, m) && Fair(b, m)
    ensures Anchored(Create(b, k, l, now), m) && Fair(Create(b, k, l, now), m)
  {
    SameAnchors(b, Create(b, k, l, now), m);
  }

  lemma CreateToken<L, T>(b: Book<L, T>, k: Sid, l: L, now: int, t: T)
    requires k !in b.leases && l !in b.lease && t in b.status && Live(b, t)
    ensures Live(Create(b, k, l, now), t)
  {}

  lemma CreateKeeps<L, T>(b: Book<L, T>, k: Sid, l: L, now: int)
    requires Inv(b) && k !in b.leases && l !in b.lease
    ensures Inv(Create(b, k, l, now))
  {
    var c := Create(b, k, l, now);
    CreateKeyed(b, k, l, now);
    forall m | m in c.lease ensures Anchored(c, m) && Fair(c, m) {
      if m == l { CreatedLease(b, k, l, now); } else { CreateLease(b, k, l, now, m); }
    }
    forall t | t in c.status ensures Live(c, t) { CreateToken(b, k, l, now, t); }
  }

  lemma GetOrCreateKeeps<L, T>(b: Book<L, T>, k: Sid, l: L, max: nat, now: int)
    requires Inv(b) && l !in b.lease
    ensures var c := GetOrCreate(b, k, l, max, now);
            && Inv(c) && k in c.leases && c.leases[k] in c.lease
            && c.status == b.status && c.sid == b.sid && c.home == b.home
  {
    if k in b.leases {
      TouchKeeps(b, b.leases[k], now);
    } else {
      VictimsIdle(b, max);
      RemoveKeeps(b, Victims(b, max));
      CreateKeeps(Remove(b, Victims(b, max)), k, l, now);
    }
  }

  // --- acquire ---

  /** A token nobody has seen is in no lease. */
  ghost predicate Stranger<L, T>(b: Book<L, T>, t: T, l: L)
    requires l in b.lease && l in b.arrived && l in b.granted
  {
    b.lease[l].holder != Some(t) && t !in b.lease[l].queue && t !in b.arrived[l] && t !in b.granted[l]
  }

  lemma StrangerIsNowhere<L, T>(b: Book<L, T>, t: T, l: L)
    requires l in b.lease && Anchored(b, l) && Fair(b, l) && t !in b.status
    ensures Stranger(b, t, l)
  {}

  lemma HoldLease<L, T>(b: Book<L, T>, k: Sid, t: T, l: L, now: int, m: L)
    requires k in b.leases && b.leases[k] == l && l in b.lease && b.lease[l].holder.None? && t !in b.status
    requires m in b.lease && Anchored(b, m) && Fair(b, m)
    ensures Anchored(Hold(b, k, t, l, now), m) && Fair(Hold(b, k, t, l, now), m)
  {
    var c := Hold(b, k, t, l, now);
    StrangerIsNowhere(b, t, m);
    SameSurvivors(b.arrived[m], b.status, c.status);
    if m != l { SameAnchors(b, c, m); }
  }

  lemma HoldToken<L, T>(b: Book<L, T>, k: Sid, t: T, l: L, now: int, u: T)
    requires k in b.leases && b.leases[k] == l && l in b.lease && b.lease[l].holder.None? && t !in b.status
    requires u == t || (u in b.status && Live(b, u))
    ensures Live(Hold(b, k, t, l, now), u)
  {}

  lemma HoldKeeps<L, T>(b: Book<L, T>, k: Sid, t: T, l: L, now: int)
    requires Inv(b) && k in b.leases && b.leases[k] == l && l in b.lease && b.lease[l].holder.None? && t !in b.status
    ensures Inv(Hold(b, k, t, l, now))
  {
    var c := Hold(b, k, t, l, now);
    forall m | m in c.lease ensures Anchored(c, m) && Fair(c, m) { HoldLease(b, k, t, l, now, m); }
    forall u | u in c.status ensures Live(c, u) { HoldToken(b, k, t, l, now, u); }
  }

  lemma {:induction false} SurvivorsAppend<T>(s: seq<T>, t: T, st: map<T, Status>)
    requires t in st && st[t] != TimedOut
    ensures Survivors(s + [t], st) == Survivors(s, st) + [t]
  {
    if s == [] {
      assert [t][1..] == [];
    } else {
      SurvivorsAppend(s[1..], t, st);
      assert (s + [t])[1..] == s[1..] + [t];
    }
  }

  lemma EnqueueLease<L, T>(b: Book<L, T>, k: Sid, t: T, l: L, m: L)
    requires k in b.leases && b.leases[k] == l && l in b.lease && b.lease[l].holder.Some? && t !in b.status
    requires m in b.lease && Anchored(b, m)
    ensures Anchored(Enqueue(b, k, t, l), m)
  {
    var c := Enqueue(b, k, t, l);
    if m != l { SameAnchors(b, c, m); } else { NoDupAppend(b.lease[l].queue, t); }
  }

  lemma EnqueueFair<L, T>(b: Book<L, T>, k: Sid, t: T, l: L, m: L)
    requires l in b.lease && t !in b.status && m in b.lease && Anchored(b, m) && Fair(b, m)
    ensures Fair(Enqueue(b, k, t, l), m)
  {
    var c := Enqueue(b, k, t, l);
    StrangerIsNowhere(b, t, m);
    SameSurvivors(b.arrived[m], b.status, c.status);
    if m == l {
      NoDupAppend(b.arrived[l], t);
      SurvivorsAppend(b.arrived[l], t, c.status);
      Assoc(b.granted[l], b.lease[l].queue, [t]);
    }
  }

  lemma EnqueueToken<L, T>(b: Book<L, T>, k: Sid, t: T, l: L, u: T)
    requires k in b.leases && b.leases[k] == l && l in b.lease && b.lease[l].holder.Some? && t !in b.status
    requires u == t || (u in b.status && Live(b, u))
    ensures Live(Enqueue(b, k, t, l), u)
  {}

  lemma EnqueueKeeps<L, T>(b: Book<L, T>, k: Sid, t: T, l: L)
    requires Inv(b) && k in b.leases && b.leases[k] == l && l in b.lease && b.lease[l].holder.Some? && t !in b.status
    ensures Inv(Enqueue(b, k, t, l))
  {
    var c := Enqueue(b, k, t, l);
    forall m | m in c.lease ensures Anchored(c, m) && Fair(c, m) {
      EnqueueLease(b, k, t, l, m);
      EnqueueFair(b, k, t, l, m);
    }
    forall u | u in c.status ensures Live(c, u) { EnqueueToken(b, k, t, l, u); }
  }

  /** acquire keeps the invariant and the fate of every other token. */
  lemma AcquireKeeps<L, T>(b: Book<L, T>, k: Sid, t: T, l: L, max: nat, now: int, later: int)
    requires Inv(b) && l !in b.lease && t !in b.status
    ensures Inv(Acquire(b, k, t, l, max, now, later))
    ensures var status := Acquire(b, k, t, l, max, now, later).status;
            status == b.status[t := Held] || status == b.status[t := Waiting]
  {
    var c := GetOrCreate(b, k, l, max, now);
    GetOrCreateKeeps(b, k, l, max, now);
    var at := c.leases[k];
    if c.lease[at].holder.None? {
      HoldKeeps(c, k, t, at, later);
    } else {
      EnqueueKeeps(c, k, t, at);
    }
  }
}
