/** Eviction: least recently used idle sessions go first, and only as many as needed. */
module LeaseEviction {
  import opened Basics
  import opened LeaseBook
  import opened LeaseSafety
  import opened LeaseRuns

  lemma {:induction false} FilterCount(s: seq<Sid>, keys: seq<Sid>)
    requires NoDup(s) && NoDup(keys) && forall k :: k in keys ==> k in s
    ensures |Filter(s, k => k !in keys)| == |s| - |keys|
  {
    var p := (k: Sid) => k !in keys;
    var r := Filter(s, p);
    FilterNoDup(s, p);
    NoDupCount(s, set k | k in s);
    NoDupCount(keys, set k | k in keys);
    NoDupCount(r, (set k | k in s) - (set k | k in keys));
  }

  lemma VictimsNoDup(b: Book<nat, nat>, max: nat)
    requires Keyed(b)
    ensures NoDup(Victims(b, max))
  {
    CandidatesNoDup(b);
    VictimsAreFirst(b, max);
    NoDupPrefix(Candidates(b), |Victims(b, max)|);
  }

  lemma CandidatesNoDup(b: Book<nat, nat>)
    requires Keyed(b)
    ensures NoDup(Candidates(b))
  {
    FilterNoDup(b.order, k => IdleKey(b, k));
    NoDupByCount(Filter(b.order, k => IdleKey(b, k)), Candidates(b));
  }

  lemma NoDupPrefix(s: seq<Sid>, n: nat)
    requires NoDup(s) && n <= |s|
    ensures NoDup(s[..n])
  {}

  lemma NoDupByCount(s: seq<Sid>, r: seq<Sid>)
    requires NoDup(s) && multiset(r) == multiset(s)
    ensures NoDup(r)
  {
    forall i, j | 0 <= i < j < |r| ensures r[i] != r[j] {
      if r[i] == r[j] {
        Twice(r, i, j);
        Once(s, r[i]);
      }
    }
  }

  lemma Twice(r: seq<Sid>, i: nat, j: nat)
    requires i < j < |r| && r[i] == r[j]
    ensures multiset(r)[r[i]] >= 2
  {
    assert r == r[..i] + [r[i]] + r[i + 1..j] + [r[j]] + r[j + 1..];
  }

  lemma {:induction false} Once(s: seq<Sid>, k: Sid)
    requires NoDup(s)
    ensures multiset(s)[k] <= 1
  {
    if s != [] {
      assert s == [s[0]] + s[1..];
      Once(s[1..], k);
      if k == s[0] { assert k !in s[1..]; }
    }
  }

  lemma CandidatesAreIdle(b: Book<nat, nat>, k: Sid)
    requires Keyed(b)
    ensures k in Candidates(b) <==> IdleKey(b, k)
  {
    var idle := Filter(b.order, x => IdleKey(b, x));
    assert multiset(Candidates(b)) == multiset(idle);
    assert k in Candidates(b) <==> k in multiset(idle);
  }

  lemma VictimsAreFirst(b: Book<nat, nat>, max: nat)
    ensures var c := Candidates(b); var v := Victims(b, max);
            |v| <= |c| && v == c[..|v|] && (|v| < |c| ==> |v| == if |b.leases| < max then 0 else |b.leases| - max + 1)
  {}

  /** Eviction takes only idle keys, the least recently used first. */
  lemma EvictionIsLru(b: Book<nat, nat>, max: nat, v: Sid, k: Sid)
    requires Keyed(b) && v in Victims(b, max) && IdleKey(b, k) && k !in Victims(b, max)
    ensures IdleKey(b, v) && LastUse(b, v) <= LastUse(b, k)
  {
    VictimsIdle(b, max);
    VictimsAreFirst(b, max);
    CandidatesAreIdle(b, k);
    LaterIsNewer(Candidates(b), x => LastUse(b, x), |Victims(b, max)|, v, k) by {
      SortSorts(Filter(b.order, x => IdleKey(b, x)), x => LastUse(b, x));
    }
  }

  function IdleKeys(b: Book<nat, nat>): set<Sid> { set k | k in b.leases && IdleKey(b, k) }

  /** Eviction takes as many keys as are needed to make room for one, or all idle ones if these are fewer. */
  lemma EvictionIsExact(b: Book<nat, nat>, max: nat)
    requires Keyed(b)
    ensures var needed := if |b.leases| < max then 0 else |b.leases| + 1 - max;
            |Victims(b, max)| == if needed <= |IdleKeys(b)| then needed else |IdleKeys(b)|
  {
    CandidatesNoDup(b);
    forall k ensures k in Candidates(b) <==> k in IdleKeys(b) { CandidatesAreIdle(b, k); }
    NoDupCount(Candidates(b), IdleKeys(b));
  }

  /** `x` comes before `y`. */
  ghost predicate Earlier(s: seq<Sid>, x: Sid, y: Sid) { exists i, j :: 0 <= i < j < |s| && s[i] == x && s[j] == y }

  lemma EarlierInTail(s: seq<Sid>, x: Sid, y: Sid)
    requires s != [] && Earlier(s[1..], x, y)
    ensures Earlier(s, x, y)
  {
    var i, j :| 0 <= i < j < |s[1..]| && s[1..][i] == x && s[1..][j] == y;
    assert s[i + 1] == x && s[j + 1] == y;
  }

  lemma EarlierOfHead(s: seq<Sid>, y: Sid)
    requires s != [] && y in s[1..]
    ensures Earlier(s, s[0], y)
  {
    var j :| 0 <= j < |s[1..]| && s[1..][j] == y;
    assert s[j + 1] == y;
  }

  /** Of a sequence with head, what is earlier is the head or earlier in the tail. */
  lemma EarlierSplit(h: Sid, s: seq<Sid>, x: Sid, y: Sid)
    requires Earlier([h] + s, x, y)
    ensures (x == h && y in s) || Earlier(s, x, y)
  {
    var r := [h] + s;
    var i, j :| 0 <= i < j < |r| && r[i] == x && r[j] == y;
    assert s[j - 1] == y;
    if i > 0 { assert s[i - 1] == x; }
  }

  /** Insertion keeps the others in order and puts the new key before its equals. */
  lemma {:induction false} InsertKeepsOrder(k: Sid, s: seq<Sid>, use: Sid -> int, x: Sid, y: Sid)
    requires k !in s && Earlier(InsertByUse(k, s, use), x, y)
    ensures x == k || (y == k && use(x) < use(k) && x in s) || Earlier(s, x, y)
  {
    if s == [] || use(k) <= use(s[0]) {
      EarlierSplit(k, s, x, y);
    } else {
      var r := InsertByUse(k, s[1..], use);
      EarlierSplit(s[0], r, x, y);
      if x == s[0] && y in r {
        assert y in multiset(r);
        if y != k {
          assert y in s[1..];
          EarlierOfHead(s, y);
        }
      } else {
        InsertKeepsOrder(k, s[1..], use, x, y);
        if Earlier(s[1..], x, y) { EarlierInTail(s, x, y); }
      }
    }
  }

  lemma {:induction false} SortIsStable(s: seq<Sid>, use: Sid -> int, x: Sid, y: Sid)
    requires NoDup(s) && Earlier(SortByUse(s, use), x, y) && use(x) == use(y)
    ensures Earlier(s, x, y)
  {
    if s != [] {
      var r := SortByUse(s[1..], use);
      forall z | z in r ensures z in s[1..] { assert z in multiset(r); }
      InsertKeepsOrder(s[0], r, use, x, y);
      if x == s[0] {
        InsertedAfter(s[0], r, use, y);
        EarlierOfHead(s, y);
      } else if Earlier(r, x, y) {
        SortIsStable(s[1..], use, x, y);
        EarlierInTail(s, x, y);
      }
    }
  }

  lemma InsertedAfter(k: Sid, s: seq<Sid>, use: Sid -> int, y: Sid)
    requires k !in s && Earlier(InsertByUse(k, s, use), k, y)
    ensures y in s
  {
    var r := InsertByUse(k, s, use);
    var i, j :| 0 <= i < j < |r| && r[i] == k && r[j] == y;
    if y == k { Twice(r, i, j); }
    assert y in multiset(r);
  }

  lemma {:induction false} FilterKeepsOrder(s: seq<Sid>, p: Sid -> bool, x: Sid, y: Sid)
    requires Earlier(Filter(s, p), x, y)
    ensures Earlier(s, x, y)
  {
    if s != [] {
      var rest := Filter(s[1..], p);
      if p(s[0]) { EarlierSplit(s[0], rest, x, y); } else { assert Filter(s, p) == rest; }
      if p(s[0]) && x == s[0] && y in rest { EarlierOfHead(s, y); }
      else {
        FilterKeepsOrder(s[1..], p, x, y);
        EarlierInTail(s, x, y);
      }
    }
  }

  lemma VictimIsEarlier(c: seq<Sid>, n: nat, v: Sid, k: Sid)
    requires n <= |c| && v in c[..n] && k in c && k !in c[..n]
    ensures Earlier(c, v, k)
  {
    assert c == c[..n] + c[n..];
    var i :| 0 <= i < n && c[..n][i] == v;
    var j :| 0 <= j < |c| - n && c[n..][j] == k;
    assert c[i] == v && c[n + j] == k;
  }

  /** Among keys used at the same time, the one registered first goes first. */
  lemma EvictionIsStable(b: Book<nat, nat>, max: nat, v: Sid, k: Sid)
    requires Keyed(b) && v in Victims(b, max) && IdleKey(b, k) && k !in Victims(b, max)
    requires LastUse(b, v) == LastUse(b, k)
    ensures Earlier(b.order, v, k)
  {
    var p, use := (x: Sid) => IdleKey(b, x), (x: Sid) => LastUse(b, x);
    VictimsAreFirst(b, max);
    CandidatesAreIdle(b, k);
    VictimIsEarlier(Candidates(b), |Victims(b, max)|, v, k);
    FilterNoDup(b.order, p);
    SortIsStable(Filter(b.order, p), use, v, k);
    FilterKeepsOrder(b.order, p, v, k);
  }

  lemma LaterIsNewer(s: seq<Sid>, use: Sid -> int, n: nat, v: Sid, k: Sid)
    requires n <= |s| && SortedByUse(s, use) && v in s[..n] && k in s && k !in s[..n]
    ensures use(v) <= use(k)
  {
    assert s == s[..n] + s[n..];
    var i :| 0 <= i < n && s[i] == v;
    var j :| 0 <= j < |s| - n && s[n..][j] == k;
    assert s[n + j] == k;
  }

  /** When eviction could not make enough room it had taken every idle key. */
  lemma AllIdleEvicted(b: Book<nat, nat>, max: nat, x: Sid)
    requires Keyed(b) && |b.leases| - |Victims(b, max)| + 1 > max && x !in Victims(b, max)
    ensures !IdleKey(b, x)
  {
    VictimsAreFirst(b, max);
    CandidatesAreIdle(b, x);
    var c := Candidates(b);
    assert c[..|c|] == c;
  }

  lemma RoomCount(b: Book<nat, nat>, max: nat)
    requires Keyed(b)
    ensures |Remove(b, Victims(b, max)).leases| == |b.leases| - |Victims(b, max)|
  {
    var victims := Victims(b, max);
    var room := Remove(b, victims);
    VictimsIdle(b, max);
    VictimsNoDup(b, max);
    FilterCount(b.order, victims);
    NoDupCount(b.order, b.leases.Keys);
    RemoveKeyed(b, victims);
    NoDupCount(room.order, room.leases.Keys);
  }

  /** The book after an unknown session registered. */
  lemma RegistrationHolds(r: Registry, max: nat, k: Sid, now: int, later: int)
    requires RunInv(r) && ValidIdentity(k) && k !in r.book.leases
    ensures Step(r, max, Acquires(k, now, later)).book
         == Hold(Create(Remove(r.book, Victims(r.book, max)), k, r.next, now), k, r.next, r.next, later)
  {}

  lemma StaysBusy(b: Book<nat, nat>, keys: seq<Sid>, k: Sid, n: nat, now: int, later: int, x: Sid)
    requires Keyed(b) && n !in b.lease && n !in b.status && k !in b.leases
    requires x in b.leases && x !in keys && !IdleKey(b, x)
    ensures !IdleKey(Hold(Create(Remove(b, keys), k, n, now), k, n, n, later), x)
  {
    var c := Hold(Create(Remove(b, keys), k, n, now), k, n, n, later);
    var l := b.leases[x];
    assert c.leases[x] == l && c.lease[l] == b.lease[l];
    if b.lease[l].holder.None? {
      var t :| t in b.lease[l].queue && IsWaiting(b, t);
      assert IsWaiting(c, t);
    }
  }

  /** Registering a new session leaves at most `max` entries, or every entry busy. */
  lemma RegistrationIsBounded(r: Registry, max: nat, k: Sid, now: int, later: int)
    requires RunInv(r) && max >= 1 && ValidIdentity(k) && k !in r.book.leases
    ensures var c := Step(r, max, Acquires(k, now, later)).book;
            |c.leases| <= max || forall x :: x in c.leases ==> !IdleKey(c, x)
  {
    var b := r.book;
    var victims := Victims(b, max);
    RoomCount(b, max);
    RegistrationHolds(r, max, k, now, later);
    var c := Step(r, max, Acquires(k, now, later)).book;
    var room := Remove(b, victims);
    assert c.leases == room.leases[k := r.next];
    if |c.leases| > max {
      forall x | x in c.leases ensures !IdleKey(c, x) {
        if x != k {
          AllIdleEvicted(b, max, x);
          StaysBusy(b, victims, k, r.next, now, later, x);
        } else {
          assert c.lease[r.next].holder == Some(r.next);
        }
      }
    }
  }
}
