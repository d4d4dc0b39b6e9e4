/**
 * The turn-lease registry as a machine over leases `L` and tokens `T`, whatever names these objects. A waiter is
 * named by its token. Where the source reads the clock twice, `now` is the first reading and `later` the second.
 */
module LeaseBook {
  import opened Basics
  import opened JsText

  type Sid = Text

  /** The fate of a token's promise and of the token: waiting, timed out, granted and held, given back. */
  datatype Status = Waiting | TimedOut | Held | Released

  datatype Lease<T> = Lease(holder: Option<T>, queue: seq<T>, lastUsed: int)

  /**
   * `order` lists the keys of `leases` as the Map iterates them. `home` is the lease a waiter's timer closes over.
   * `arrived` and `granted` record, per lease, who queued up and who was granted from the queue.
   */
  datatype Book<L, T> = Book(
    leases: map<Sid, L>, order: seq<Sid>, lease: map<L, Lease<T>>,
    sid: map<T, Sid>, status: map<T, Status>, home: map<T, L>,
    arrived: map<L, seq<T>>, granted: map<L, seq<T>>)

  // --- eviction ---

  /** No holder and no waiter that is still unsettled. */
  predicate Idle<L, T>(b: Book<L, T>, l: L) {
    l in b.lease ==> b.lease[l].holder.None? && forall t :: t in b.lease[l].queue ==> !IsWaiting(b, t)
  }

  predicate IsWaiting<L, T>(b: Book<L, T>, t: T) { t in b.status && b.status[t] == Waiting }

  predicate IdleKey<L, T>(b: Book<L, T>, k: Sid) { k in b.leases && Idle(b, b.leases[k]) }

  function LastUse<L, T>(b: Book<L, T>, k: Sid): int {
    if k in b.leases && b.leases[k] in b.lease then b.lease[b.leases[k]].lastUsed else 0
  }

  function Filter(s: seq<Sid>, p: Sid -> bool): (r: seq<Sid>)
    ensures forall k :: k in r <==> k in s && p(k)
    ensures |r| <= |s|
  {
    if s == [] then [] else (if p(s[0]) then [s[0]] else []) + Filter(s[1..], p)
  }

  /** Insertion before equal keys, which keeps the sort stable. */
  function InsertByUse(k: Sid, s: seq<Sid>, use: Sid -> int): (r: seq<Sid>)
    ensures multiset(r) == multiset(s) + multiset{k}
    ensures |r| == |s| + 1
  {
    if s == [] || use(k) <= use(s[0]) then [k] + s
    else
      assert s == [s[0]] + s[1..];
      [s[0]] + InsertByUse(k, s[1..], use)
  }

  function SortByUse(s: seq<Sid>, use: Sid -> int): (r: seq<Sid>)
    ensures multiset(r) == multiset(s) && |r| == |s|
  {
    if s == [] then []
    else
      assert s == [s[0]] + s[1..];
      InsertByUse(s[0], SortByUse(s[1..], use), use)
  }

  predicate SortedByUse(s: seq<Sid>, use: Sid -> int) {
    forall i, j :: 0 <= i < j < |s| ==> use(s[i]) <= use(s[j])
  }

  lemma {:induction false} InsertSorted(k: Sid, s: seq<Sid>, use: Sid -> int)
    requires SortedByUse(s, use)
    ensures SortedByUse(InsertByUse(k, s, use), use)
  {
    if s != [] && use(k) > use(s[0]) {
      InsertSorted(k, s[1..], use);
      var r := InsertByUse(k, s[1..], use);
      forall x | x in r ensures use(s[0]) <= use(x) {
        assert x in multiset(r);
        assert x in multiset(s[1..]) || x == k;
      }
    }
  }

  lemma {:induction false} SortSorts(s: seq<Sid>, use: Sid -> int)
    ensures SortedByUse(SortByUse(s, use), use)
  {
    if s != [] {
      SortSorts(s[1..], use);
      InsertSorted(s[0], SortByUse(s[1..], use), use);
    }
  }

  /** The idle keys in the order in which they would go. */
  function Candidates<L, T>(b: Book<L, T>): seq<Sid> {
    SortByUse(Filter(b.order, k => IdleKey(b, k)), k => LastUse(b, k))
  }

  /** The keys evictIdle deletes before a key is added. */
  function Victims<L, T>(b: Book<L, T>, max: nat): seq<Sid> {
    var overflow := |b.leases| - max + 1;
    if overflow <= 0 then []
    else if overflow < |Candidates(b)| then Candidates(b)[..overflow] else Candidates(b)
  }

  function KeySet(keys: seq<Sid>): set<Sid> { set k | k in keys }

  function Kept(order: seq<Sid>, keys: seq<Sid>): seq<Sid> { Filter(order, k => k !in keys) }

  function Remove<L, T>(b: Book<L, T>, keys: seq<Sid>): Book<L, T> {
    b.(leases := b.leases - KeySet(keys), order := Kept(b.order, keys))
  }

  // --- the operations ---

  predicate ValidIdentity(v: Text) { 1 <= |v| <= 512 }

  function Touch<L, T>(b: Book<L, T>, l: L, now: int): Book<L, T>
    requires l in b.lease
  {
    b.(lease := b.lease[l := b.lease[l].(lastUsed := now)])
  }

  function Bind<L, T>(b: Book<L, T>, k: Sid, l: L): Book<L, T> {
    b.(leases := b.leases[k := l], order := if k in b.leases then b.order else b.order + [k])
  }

  /** A new lease object under a new key. */
  function Create<L, T>(b: Book<L, T>, k: Sid, l: L, now: int): Book<L, T> {
    Bind(b, k, l).(lease := b.lease[l := Lease(None, [], now)], arrived := b.arrived[l := []],
                   granted := b.granted[l := []])
  }

  /** getOrCreate; `l` is the object created when the key is unknown. */
  function GetOrCreate<L, T>(b: Book<L, T>, k: Sid, l: L, max: nat, now: int): Book<L, T> {
    if k in b.leases then (if b.leases[k] in b.lease then Touch(b, b.leases[k], now) else b)
    else Create(Remove(b, Victims(b, max)), k, l, now)
  }

  function Trail<L, T>(m: map<L, seq<T>>, l: L): seq<T> { if l in m then m[l] else [] }

  function Hold<L, T>(b: Book<L, T>, k: Sid, t: T, l: L, now: int): Book<L, T>
    requires l in b.lease
  {
    b.(lease := b.lease[l := b.lease[l].(holder := Some(t), lastUsed := now)],
       sid := b.sid[t := k], status := b.status[t := Held], home := b.home[t := l])
  }

  function Enqueue<L, T>(b: Book<L, T>, k: Sid, t: T, l: L): Book<L, T>
    requires l in b.lease
  {
    b.(lease := b.lease[l := b.lease[l].(queue := b.lease[l].queue + [t])],
       sid := b.sid[t := k], status := b.status[t := Waiting], home := b.home[t := l],
       arrived := b.arrived[l := Trail(b.arrived, l) + [t]])
  }

  /** acquire with valid arguments: hold the lease at once or queue up. */
  function Acquire<L, T>(b: Book<L, T>, k: Sid, t: T, l: L, max: nat, now: int, later: int): Book<L, T> {
    var c := GetOrCreate(b, k, l, max, now);
    if k !in c.leases || c.leases[k] !in c.lease then c
    else if c.lease[c.leases[k]].holder.None? then Hold(c, k, t, c.leases[k], later)
    else Enqueue(c, k, t, c.leases[k])
  }

  function Without<T(==)>(s: seq<T>, t: T): seq<T> {
    if s == [] then [] else if s[0] == t then s[1..] else [s[0]] + Without(s[1..], t)
  }

  /** The timer of waiter `t` fires. */
  function Expire<L, T(==)>(b: Book<L, T>, t: T): Book<L, T> {
    if !IsWaiting(b, t) || t !in b.home || b.home[t] !in b.lease then b
    else
      var l := b.lease[b.home[t]];
      b.(lease := b.lease[b.home[t] := l.(queue := Without(l.queue, t))], status := b.status[t := TimedOut])
  }

  /** grantNext: pass a lease without holder to the first waiter that has not been settled. */
  function GrantNext<L, T>(b: Book<L, T>, l: L, now: int): Book<L, T>
    requires l in b.lease
    decreases |b.lease[l].queue|
  {
    var was := b.lease[l];
    if was.queue == [] then b
    else
      var t := was.queue[0];
      var popped := b.(lease := b.lease[l := was.(queue := was.queue[1..])]);
      if IsWaiting(b, t) then
        popped.(lease := b.lease[l := Lease(Some(t), was.queue[1..], now)], status := b.status[t := Held],
                granted := b.granted[l := Trail(b.granted, l) + [t]])
      else GrantNext(popped, l, now)
  }

  /** The token is the holder of the lease its session id leads to. */
  predicate Holds<L, T(==)>(b: Book<L, T>, t: T) {
    t in b.sid && b.sid[t] in b.leases && b.leases[b.sid[t]] in b.lease && b.lease[b.leases[b.sid[t]]].holder == Some(t)
  }

  function Release<L, T(==)>(b: Book<L, T>, t: T, now: int, later: int): (Book<L, T>, bool) {
    if t !in b.status || b.status[t] == Released then (b, false)
    else
      var marked := b.(status := b.status[t := Released]);
      if !Holds(b, t) then (marked, false)
      else
        var l := b.leases[b.sid[t]];
        (GrantNext(marked.(lease := b.lease[l := b.lease[l].(holder := None, lastUsed := now)]), l, later), true)
  }

  function Rebind<L(==), T(==)>(b: Book<L, T>, t: T, k: Sid, now: int): (Book<L, T>, bool) {
    if t !in b.status || b.status[t] == Released || !ValidIdentity(k) || !Holds(b, t) || k == b.sid[t] then (b, false)
    else
      var l := b.leases[b.sid[t]];
      if k in b.leases && b.leases[k] != l && !Idle(b, b.leases[k]) then (b, false)
      else (Touch(Bind(b, k, l), l, now).(sid := b.sid[t := k]), true)
  }
}
