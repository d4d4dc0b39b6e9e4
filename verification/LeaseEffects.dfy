/** What acquire, release and rebind do to the leases, spelled out field by field. */
module LeaseEffects {
  import opened Basics
  import opened LeaseBook
  import opened LeaseSafety
  import opened LeaseSteps
  import opened LeaseTurns
  import opened LeaseRuns

  /** Every lease but `l` is as it was. */
  ghost predicate OthersKept<L, T>(b: Book<L, T>, c: Book<L, T>, l: L) {
    forall m :: m in b.lease && m != l ==> m in c.lease && c.lease[m] == b.lease[m]
  }

  /**
   * acquire: the token holds the lease of its session id at once if that is free or new, and else is last in its
   * queue; the lease was used just now. Of the other keys only victims of an eviction go, and only for a new key.
   */
  lemma AcquireTakes<L, T>(b: Book<L, T>, k: Sid, t: T, l: L, max: nat, now: int, later: int)
    requires Inv(b) && l !in b.lease && t !in b.status
    ensures var c := Acquire(b, k, t, l, max, now, later);
            var at := if k in b.leases then b.leases[k] else l;
            && k in c.leases && c.leases[k] == at && at in c.lease && t in c.sid && c.sid[t] == k && t in c.status
            && (c.status[t] == Held <==> k !in b.leases || b.lease[at].holder.None?)
            && c.lease[at] == (if c.status[t] == Held then Lease(Some(t), [], later)
                               else Lease(b.lease[at].holder, b.lease[at].queue + [t], now))
            && OthersKept(b, c, at)
            && c.leases == (if k in b.leases then b.leases else (b.leases - KeySet(Victims(b, max)))[k := l])
  {
    if k in b.leases { assert Anchored(b, b.leases[k]); }
  }

  /** release by the holder: the lease goes to the first in the queue, or to nobody; either way it was used just now. */
  lemma ReleasePasses<L, T>(b: Book<L, T>, t: T, now: int, later: int)
    requires Inv(b) && t in b.status && b.status[t] == Held
    ensures var (c, ok) := Release(b, t, now, later);
            && ok && t in b.sid && b.sid[t] in b.leases && b.leases[b.sid[t]] in b.lease
            && var l := b.leases[b.sid[t]]; var q := b.lease[l].queue;
               && l in c.lease && OthersKept(b, c, l) && c.leases == b.leases && c.sid == b.sid
               && c.lease[l] == (if q == [] then Lease(None, [], now) else Lease(Some(q[0]), q[1..], later))
               && c.status == (if q == [] then b.status[t := LeaseBook.Released]
                               else b.status[t := LeaseBook.Released][q[0] := Held])
  {
    ReleaseIsPass(b, t, now, later);
    assert Live(b, t);
  }

  /** The other session id leads to a lease that somebody holds, and not to the token's own. */
  ghost predicate TakenByOther<L, T>(b: Book<L, T>, t: T, k: Sid)
    requires Inv(b) && t in b.status && b.status[t] == Held
  {
    assert Live(b, t);
    k in b.leases && b.leases[k] != b.leases[b.sid[t]] && b.lease[b.leases[k]].holder.Some?
  }

  /**
   * rebind succeeds exactly for a token that holds its lease and a new session id of valid length that no other
   * holder uses; then the token's session id and the lease under it are as asked, and every other key stays.
   */
  lemma RebindIff<L, T>(b: Book<L, T>, t: T, k: Sid, now: int)
    requires Inv(b)
    ensures var (c, ok) := Rebind(b, t, k, now);
            && (ok <==> t in b.status && b.status[t] == Held && 1 <= |k| <= 512 && t in b.sid && k != b.sid[t]
                        && !TakenByOther(b, t, k))
            && (!ok ==> c == b)
            && (ok ==> b.sid[t] in b.leases && b.leases[b.sid[t]] in b.lease
                       && var l := b.leases[b.sid[t]];
                          && c.sid == b.sid[t := k] && c.leases == b.leases[k := l] && c.status == b.status
                          && l in c.lease && c.lease[l] == Lease(Some(t), b.lease[l].queue, now) && OthersKept(b, c, l))
  {
    if t in b.status {
      assert Live(b, t);
      if Holds(b, t) { assert Anchored(b, b.leases[b.sid[t]]); }
      if k in b.leases { assert Anchored(b, b.leases[k]); }
    }
  }

  // --- the registry ---

  /** `t` is first in the queue of the lease that `u` holds. */
  ghost predicate NextInLine(b: Book<nat, nat>, u: nat, t: nat) {
    && u in b.status && b.status[u] == Held && u in b.sid && b.sid[u] in b.leases && b.leases[b.sid[u]] in b.lease
    && b.lease[b.leases[b.sid[u]]].queue != [] && b.lease[b.leases[b.sid[u]]].queue[0] == t
  }

  /** The fate of a known token after an event. */
  ghost function FateAfter(b: Book<nat, nat>, e: Event, t: nat): Status
    requires t in b.status
  {
    match e
    case TimesOut(u) => if u == t && b.status[t] == Waiting then TimedOut else b.status[t]
    case Releases(u, _, _) =>
      if u == t && b.status[t] == Held then LeaseBook.Released
      else if NextInLine(b, u, t) then Held
      else b.status[t]
    case _ => b.status[t]
  }

  lemma ReleaseFate(b: Book<nat, nat>, u: nat, now: int, later: int, t: nat)
    requires Inv(b) && t in b.status && u in b.status && b.status[u] == Held
    ensures var c := Release(b, u, now, later).0;
            t in c.status && c.status[t] == FateAfter(b, Releases(u, now, later), t)
  {
    ReleasePasses(b, u, now, later);
    assert Anchored(b, b.leases[b.sid[u]]);
  }

  lemma ReleasedAgain(b: Book<nat, nat>, u: nat, now: int, later: int)
    requires u in b.status && b.status[u] == LeaseBook.Released
    ensures Release(b, u, now, later).0 == b
  {}

  lemma FateDecided(r: Registry, max: nat, e: Event, t: nat)
    requires RunInv(r) && t in r.book.status
    ensures var c := LeaseRuns.Step(r, max, e).book; t in c.status && c.status[t] == FateAfter(r.book, e, t)
  {
    match e
    case Acquires(k, now, later) => if ValidIdentity(k) { AcquireKeeps(r.book, k, r.next, r.next, max, now, later); }
    case TimesOut(u) => ExpireKeeps(r.book, u);
    case Releases(u, now, later) =>
      if HandedOut(r.book, u) {
        if r.book.status[u] == Held { ReleaseFate(r.book, u, now, later, t); }
        else { ReleasedAgain(r.book, u, now, later); }
      }
    case Rebinds(u, k, now) => RebindKeeps(r.book, u, k, now);
  }

  /**
   * Over every run: a waiter times out exactly by its own timer, is granted exactly when the holder of its lease
   * releases and it is first in the queue, and a held token is given back exactly by its release.
   */
  lemma FatesAreDecided(max: nat, events: seq<Event>, e: Event, t: nat)
    ensures var r := Run(EMPTY, max, events);
            t in r.book.status ==>
              var c := LeaseRuns.Step(r, max, e).book; t in c.status && c.status[t] == FateAfter(r.book, e, t)
  {
    LeaseRuns.RunKeeps(EMPTY, max, events);
    var r := Run(EMPTY, max, events);
    if t in r.book.status { FateDecided(r, max, e, t); }
  }

  /** A new token holds at once if and only if its session is unknown or free; ids of a wrong length get no token. */
  lemma NewFate(max: nat, events: seq<Event>, k: Sid, now: int, later: int)
    ensures var r := Run(EMPTY, max, events); var s := LeaseRuns.Step(r, max, Acquires(k, now, later));
            && (s.next == r.next + 1 <==> 1 <= |k| <= 512) && (s.next != r.next + 1 ==> s == r)
            && (s.next == r.next + 1 ==>
                  && r.next in s.book.status
                  && (s.book.status[r.next] == Held
                      <==> k !in r.book.leases || (r.book.leases[k] in r.book.lease
                                                   && r.book.lease[r.book.leases[k]].holder.None?))
                  && (s.book.status[r.next] != Held ==> s.book.status[r.next] == Waiting))
  {
    var r := Run(EMPTY, max, events);
    LeaseRuns.RunKeeps(EMPTY, max, events);
    AcquireKeeps(r.book, k, r.next, r.next, max, now, later);
    AcquireTakes(r.book, k, r.next, r.next, max, now, later);
  }

  /** A held token that is bound to another session answers to that one from then on. */
  lemma RebindMoves(max: nat, events: seq<Event>, t: nat, k: Sid, now: int)
    ensures var r := Run(EMPTY, max, events); var b := r.book; var c := LeaseRuns.Step(r, max, Rebinds(t, k, now)).book;
            Rebind(b, t, k, now).1 ==> t in c.sid && c.sid[t] == k && t in b.sid && b.sid[t] in b.leases
                                       && k in c.leases && c.leases[k] == b.leases[b.sid[t]]
  {
    LeaseRuns.RunKeeps(EMPTY, max, events);
    RebindIff(Run(EMPTY, max, events).book, t, k, now);
  }
}
