/** What every operation of the turn-lease registry keeps. */
module LeaseSafety {
  import opened Basics
  import opened LeaseBook

  ghost predicate NoDup<T>(s: seq<T>) {
    forall i, j :: 0 <= i < j < |s| ==> s[i] != s[j]
  }

  /** The key map and its iteration order agree, and every key leads to a lease object. */
  ghost predicate Keyed<L, T>(b: Book<L, T>) {
    && (forall k :: k in b.leases ==> b.leases[k] in b.lease)
    && Lists(b.order, b.leases.Keys)
  }

  ghost predicate Lists(order: seq<Sid>, keys: set<Sid>) {
    NoDup(order) && forall k :: k in order <==> k in keys
  }

  /** The token's own session id leads to lease `l`. */
  ghost predicate At<L, T>(b: Book<L, T>, t: T, l: L) {
    t in b.sid && b.sid[t] in b.leases && b.leases[b.sid[t]] == l
  }

  /** Holder and waiters of a lease are anchored to it through their session ids; without holder nobody waits. */
  ghost predicate Anchored<L, T>(b: Book<L, T>, l: L)
    requires l in b.lease
  {
    var x := b.lease[l];
    && (x.holder.Some? ==> x.holder.value in b.status && b.status[x.holder.value] == Held && At(b, x.holder.value, l))
    && (forall t :: t in x.queue ==> IsWaiting(b, t) && At(b, t, l) && t in b.home && b.home[t] == l)
    && NoDup(x.queue)
    && (x.holder.None? ==> x.queue == [])
  }

  /** A token that was granted and not given back holds its lease; one that still waits is in its queue. */
  ghost predicate Live<L, T>(b: Book<L, T>, t: T)
    requires t in b.status
  {
    && t in b.sid && t in b.home
    && (b.status[t] == Held ==> Holds(b, t))
    && (b.status[t] == Waiting ==> b.home[t] in b.lease && t in b.lease[b.home[t]].queue)
  }

  /** Arrivals that have not timed out, in order. */
  function Survivors<T>(s: seq<T>, status: map<T, Status>): seq<T> {
    if s == [] then []
    else (if s[0] in status && status[s[0]] == TimedOut then [] else [s[0]]) + Survivors(s[1..], status)
  }

  /** First come, first served: grants followed by the queue are the surviving arrivals in order. */
  ghost predicate Fair<L, T>(b: Book<L, T>, l: L)
    requires l in b.lease
  {
    && l in b.arrived && l in b.granted
    && NoDup(b.arrived[l]) && (forall t :: t in b.arrived[l] ==> t in b.status && t in b.home && b.home[t] == l)
    && (forall t :: t in b.granted[l] ==> t in b.status && b.status[t] in {Held, LeaseBook.Released})
    && Survivors(b.arrived[l], b.status) == b.granted[l] + b.lease[l].queue
  }

  ghost predicate Inv<L, T>(b: Book<L, T>) {
    && Keyed(b)
    && (forall l :: l in b.lease ==> Anchored(b, l) && Fair(b, l))
    && (forall t :: t in b.status ==> Live(b, t))
  }

  // --- consequences of the invariant ---

  /** Mutual exclusion across every alias: two tokens held at the same time belong to different leases and keys. */
  lemma HoldersNeverShare<L, T>(b: Book<L, T>, t: T, u: T)
    requires Inv(b) && t in b.status && u in b.status && b.status[t] == Held && b.status[u] == Held && t != u
    ensures b.leases[b.sid[t]] != b.leases[b.sid[u]] && b.sid[t] != b.sid[u]
  {
    assert Live(b, t) && Live(b, u);
  }

  /** A held token can always be released, and only once. */
  lemma ReleaseSucceedsOnce<L, T>(b: Book<L, T>, t: T, now: int, later: int, again: int, last: int)
    requires Inv(b) && t in b.status && b.status[t] == Held
    ensures var (c, ok) := Release(b, t, now, later);
            ok && t in c.status && c.status[t] == LeaseBook.Released && Release(c, t, again, last) == (c, false)
  {
    assert Live(b, t);
    var l := b.leases[b.sid[t]];
    assert Anchored(b, l);
    var freed := b.(status := b.status[t := LeaseBook.Released],
                    lease := b.lease[l := b.lease[l].(holder := None, lastUsed := now)]);
    GrantNextKeepsStatus(freed, l, later, t);
  }

  lemma {:induction false} GrantNextKeepsStatus<L, T>(b: Book<L, T>, l: L, now: int, t: T)
    requires l in b.lease && t in b.status && b.status[t] != Waiting
    ensures t in GrantNext(b, l, now).status && GrantNext(b, l, now).status[t] == b.status[t]
    decreases |b.lease[l].queue|
  {
    var was := b.lease[l];
    if was.queue != [] && !IsWaiting(b, was.queue[0]) {
      GrantNextKeepsStatus(b.(lease := b.lease[l := was.(queue := was.queue[1..])]), l, now, t);
    }
  }

  // --- acquire ---

  lemma FilterNoDup(s: seq<Sid>, p: Sid -> bool)
    requires NoDup(s)
    ensures NoDup(Filter(s, p))
  {
    if s != [] {
      FilterNoDup(s[1..], p);
      assert forall k :: k in Filter(s[1..], p) ==> k in s[1..];
    }
  }

  lemma NoDupCount(s: seq<Sid>, m: set<Sid>)
    requires Lists(s, m)
    ensures |s| == |m|
  {
    if s != [] {
      NoDupCount(s[1..], m - {s[0]});
    } else {
      assert m == {};
    }
  }

  lemma RemoveKeyed<L, T>(b: Book<L, T>, keys: seq<Sid>)
    requires Keyed(b)
    ensures Keyed(Remove(b, keys))
  {
    var c := Remove(b, keys);
    FilterNoDup(b.order, (k: Sid) => k !in keys);
  }

  /** A busy lease keeps all its anchors when only idle keys go. */
  lemma RemoveAt<L, T>(b: Book<L, T>, keys: seq<Sid>, t: T, l: L)
    requires At(b, t, l) && !Idle(b, l) && forall k :: k in keys ==> IdleKey(b, k)
    ensures At(Remove(b, keys), t, l)
  {
    assert b.sid[t] !in keys;
  }

  lemma RemoveAnchored<L, T>(b: Book<L, T>, keys: seq<Sid>, l: L)
    requires l in b.lease && Anchored(b, l) && forall k :: k in keys ==> IdleKey(b, k)
    ensures Anchored(Remove(b, keys), l)
  {
    var x := b.lease[l];
    if x.holder.Some? {
      RemoveAt(b, keys, x.holder.value, l);
      forall t | t in x.queue ensures At(Remove(b, keys), t, l) { RemoveAt(b, keys, t, l); }
    }
  }

  lemma RemoveLive<L, T>(b: Book<L, T>, keys: seq<Sid>, t: T)
    requires t in b.status && Live(b, t) && forall k :: k in keys ==> IdleKey(b, k)
    ensures Live(Remove(b, keys), t)
  {
    if b.status[t] == Held { RemoveAt(b, keys, t, b.leases[b.sid[t]]); }
  }

  /** Deleting keys that lead to idle leases disturbs nobody. */
  lemma RemoveKeeps<L, T>(b: Book<L, T>, keys: seq<Sid>)
    requires Inv(b) && forall k :: k in keys ==> IdleKey(b, k)
    ensures Inv(Remove(b, keys))
  {
    var c := Remove(b, keys);
    RemoveKeyed(b, keys);
    forall l | l in c.lease ensures Anchored(c, l) && Fair(c, l) {
      assert Fair(b, l);
      RemoveAnchored(b, keys, l);
    }
    forall t | t in c.status ensures Live(c, t) { RemoveLive(b, keys, t); }
  }

  lemma VictimsIdle<L, T>(b: Book<L, T>, max: nat)
    ensures forall k :: k in Victims(b, max) ==> k in b.order && IdleKey(b, k)
  {
    var idle := Filter(b.order, k => IdleKey(b, k));
    var sorted := SortByUse(idle, k => LastUse(b, k));
    forall k | k in sorted ensures k in idle { assert k in multiset(sorted); }
  }

  // --- the frame of one lease ---

  /** Nothing that anchors `l` changed. */
  lemma SameAnchors<L, T>(b: Book<L, T>, c: Book<L, T>, l: L)
    requires l in b.lease && l in c.lease && Anchored(b, l)
    requires c.lease[l].holder == b.lease[l].holder && c.lease[l].queue == b.lease[l].queue
    requires forall t :: t in b.status && (b.lease[l].holder == Some(t) || t in b.lease[l].queue) ==>
               && t in c.status && c.status[t] == b.status[t] && (t in b.home ==> t in c.home && c.home[t] == b.home[t])
               && (At(b, t, l) ==> At(c, t, l))
    ensures Anchored(c, l)
  {}

  lemma {:induction false} SameSurvivors<T>(s: seq<T>, st: map<T, Status>, st': map<T, Status>)
    requires forall t :: t in s ==> ((t in st && st[t] == TimedOut) <==> (t in st' && st'[t] == TimedOut))
    ensures Survivors(s, st) == Survivors(s, st')
  {
    if s != [] { SameSurvivors(s[1..], st, st'); }
  }
}
