/** How each RPC request is settled: by the first event after its send that decides it. */
module RpcOutcomes {
  import opened Basics
  import opened JsText
  import opened LineFraming
  import opened RpcProtocol

  // --- one event ---

  /** What the lines of a chunk mean to a pending request: the first that answers it or cannot be read decides. */
  function Deciding(lines: seq<Text>, read: Reader, id: Id): Option<Outcome> {
    if lines == [] then None
    else match read(lines[0])
      case Malformed => Some(Rejected(ProtocolFailure))
      case Response(x) => if x == id then Some(Resolved(lines[0])) else Deciding(lines[1..], read, id)
      case _ => Deciding(lines[1..], read, id)
  }

  /** What an event means to a pending request. */
  function Verdict(buffer: Text, read: Reader, e: Event, id: Id): Option<Outcome> {
    match e
    case Send(_, _, _, _) => None
    case Stdout(chunk) =>
      if |buffer| + |chunk| > 1_048_576 then Some(Rejected(ProtocolFailure))
      else Deciding(Lines(buffer + chunk), read, id)
    case Timeout(x) => if x == id then Some(TimedOut) else None
    case Abort(x) => if x == id then Some(Cancelled) else None
    case WriteError(x) => if x == id then Some(WriteFailed) else None
    case Exit => Some(Rejected(ProcessExit))
    case Dispose => Some(Rejected(Disposal))
  }

  /** The pending request is decided as the verdict says, or stays as it is. */
  ghost predicate Decides(b: Book, c: Book, id: Id, verdict: Option<Outcome>)
    requires id in b.pending
  {
    match verdict
    case None => id in c.pending && id in c.calls && c.calls[id] == []
    case Some(o) => id !in c.pending && id in c.calls && c.calls[id] == [o]
  }

  ghost predicate Unanswered(b: Book, id: Id) { id in b.pending && id in b.calls && b.calls[id] == [] }

  lemma HandleDecides(b: Book, raw: Text, read: Reader, id: Id)
    requires Unanswered(b, id)
    ensures var c := Handle(b, raw, read(raw));
            match read(raw)
            case Malformed => Decides(b, c, id, Some(Rejected(ProtocolFailure)))
            case Response(x) => Decides(b, c, id, if x == id then Some(Resolved(raw)) else None)
            case _ => Decides(b, c, id, None)
  {}

  /** A request that is not pending is not touched. */
  ghost predicate Untouched(b: Book, c: Book, id: Id) {
    id !in c.pending && (id in c.calls <==> id in b.calls) && (id in b.calls ==> c.calls[id] == b.calls[id])
  }

  lemma HandleLeaves(b: Book, raw: Text, line: Line, id: Id)
    requires id !in b.pending
    ensures Untouched(b, Handle(b, raw, line), id)
  {}

  lemma {:induction false} DrainLeaves(s: State, read: Reader, id: Id)
    requires id !in s.book.pending
    ensures Untouched(s.book, Drain(s, read).book, id)
    decreases |s.buffer|
  {
    var i := IndexOf(s.buffer, LF);
    if i >= 0 {
      var raw := s.buffer[..i];
      HandleLeaves(s.book, raw, read(raw), id);
      DrainLeaves(State(Handle(s.book, raw, read(raw)), s.buffer[i + 1..]), read, id);
    }
  }

  lemma {:induction false} DrainDecides(s: State, read: Reader, id: Id)
    requires Unanswered(s.book, id)
    ensures Decides(s.book, Drain(s, read).book, id, Deciding(Lines(s.buffer), read, id))
    decreases |s.buffer|
  {
    var i := IndexOf(s.buffer, LF);
    if i >= 0 {
      var raw, tail := s.buffer[..i], s.buffer[i + 1..];
      var next := State(Handle(s.book, raw, read(raw)), tail);
      FirstLine(s.buffer, i);
      assert Lines(s.buffer)[0] == raw && Lines(s.buffer)[1..] == Lines(tail);
      HandleDecides(s.book, raw, read, id);
      if read(raw) != Malformed {
        if id in next.book.pending { DrainDecides(next, read, id); } else { DrainLeaves(next, read, id); }
      }
    }
  }

  lemma EventDecides(s: State, max: nat, read: Reader, e: Event, id: Id)
    requires Inv(s.book, max) && id in s.book.pending
    ensures Decides(s.book, Step(s, max, read, e).book, id, Verdict(s.buffer, read, e, id))
  {
    assert Unanswered(s.book, id);
    if e.Stdout? {
      DrainDecides(State(s.book, s.buffer + e.chunk), read, id);
    } else if e.Send? {
      assert id in s.book.used;
    }
  }

  // --- sends ---

  /** The event is a send of `id` that hands out a promise. */
  ghost predicate Accepts(b: Book, max: nat, e: Event, id: Id) {
    && e.Send? && e.id == id && e.timeoutOk
    && !b.exited && !b.disposing && |b.pending| < max
    && (e.command == Prompt ==> forall x :: x in b.pending ==> b.pending[x] != Prompt)
    && |b.used| < 100_000 && 1 <= |id| <= 512 && id !in b.used
  }

  /** send hands out a promise if and only if the process lives, nothing is exhausted, and the id is valid and new. */
  lemma SendAcceptedIff(b: Book, max: nat, id: Id, command: Command, timeoutOk: bool, aborted: bool)
    ensures Refusal(b, max, id, command, timeoutOk) == None
      <==> Accepts(b, max, Event.Send(id, command, timeoutOk, aborted), id)
  {}

  /** A refused send names the first reason that applies. */
  lemma RefusalReasons(b: Book, max: nat, id: Id, command: Command, timeoutOk: bool)
    ensures var why := Refusal(b, max, id, command, timeoutOk);
            var crowded := command == Prompt && exists x :: x in b.pending && b.pending[x] == Prompt;
            && (why == Some(NotRunning) <==> b.exited || b.disposing)
            && (why == Some(PendingLimit) <==> !b.exited && !b.disposing && |b.pending| >= max)
            && (why == Some(PromptLimit) <==> !b.exited && !b.disposing && |b.pending| < max && crowded)
            && (why == Some(BadTimeout) ==> !timeoutOk) && (why == Some(DuplicateId) ==> id in b.used)
            && (why == Some(BadId) ==> id == [] || |id| > 512) && (why == Some(IdentityLimit) ==> |b.used| >= 100_000)
  {}

  /** An id is spent when its promise is handed out, and already when only the timeout was wrong; else never. */
  lemma SendSpends(b: Book, max: nat, id: Id, command: Command, timeoutOk: bool, aborted: bool)
    ensures SendStep(b, max, id, command, timeoutOk, aborted).used
         == if Accepts(b, max, Event.Send(id, command, true, aborted), id) then b.used + {id} else b.used
  {
    SendAcceptedIff(b, max, id, command, true, aborted);
    var why := Refusal(b, max, id, command, timeoutOk);
    IssueSpends(b, id, command);
    if why != None && why != Some(BadTimeout) { assert SendStep(b, max, id, command, timeoutOk, aborted) == b; }
  }

  lemma IssueSpends(b: Book, id: Id, command: Command)
    ensures Issue(b, id, command).used == b.used + {id}
    ensures Settle(Issue(b, id, command), id, Cancelled).used == b.used + {id}
  {}

  /** What being sent, and not being sent, means to a request that is not pending. */
  ghost predicate Issued(b: Book, c: Book, max: nat, e: Event, id: Id) {
    if Accepts(b, max, e, id)
    then id !in b.calls && id in c.calls
         && (if e.aborted then id !in c.pending && c.calls[id] == [Cancelled] else id in c.pending && c.calls[id] == [])
    else Untouched(b, c, id)
  }

  lemma SendIssues(b: Book, max: nat, e: Event, id: Id)
    requires Inv(b, max) && id !in b.pending && e.Send?
    ensures Issued(b, SendStep(b, max, e.id, e.command, e.timeoutOk, e.aborted), max, e, id)
  {
    SendAcceptedIff(b, max, e.id, e.command, e.timeoutOk, e.aborted);
    var c := SendStep(b, max, e.id, e.command, e.timeoutOk, e.aborted);
    if Refusal(b, max, e.id, e.command, e.timeoutOk) == None {
      IssueIs(b, e.id, e.command, e.aborted, id);
    } else {
      assert c.pending == b.pending && c.calls == b.calls;
    }
  }

  lemma IssueIs(b: Book, sent: Id, command: Command, aborted: bool, id: Id)
    requires id !in b.pending && sent !in b.used && b.calls.Keys <= b.used
    ensures var issued := Issue(b, sent, command);
            var c := if aborted then Settle(issued, sent, Cancelled) else issued;
            if id == sent
            then id !in b.calls && id in c.calls
                 && (if aborted then id !in c.pending && c.calls[id] == [Cancelled]
                     else id in c.pending && c.calls[id] == [])
            else Untouched(b, c, id)
  {}

  lemma OnlySendsIssue(s: State, max: nat, read: Reader, e: Event, id: Id)
    requires Inv(s.book, max) && id !in s.book.pending
    ensures Issued(s.book, Step(s, max, read, e).book, max, e, id)
  {
    if e.Stdout? { DrainLeaves(State(s.book, s.buffer + e.chunk), read, id); }
    if e.Send? { SendIssues(s.book, max, e, id); }
  }

  // --- runs ---

  /** The process before the m-th event. */
  function Before(max: nat, read: Reader, events: seq<Event>, m: nat): State
    requires m <= |events|
  {
    Run(INITIAL, max, read, events[..m])
  }

  ghost predicate SentAt(max: nat, read: Reader, events: seq<Event>, j: nat, id: Id) {
    j < |events| && Accepts(Before(max, read, events, j).book, max, events[j], id)
  }

  /** No event after the j-th and before the k-th decides the request. */
  ghost predicate Quiet(max: nat, read: Reader, events: seq<Event>, j: nat, k: nat, id: Id)
    requires k <= |events|
  {
    forall m :: j < m < k ==> Verdict(Before(max, read, events, m).buffer, read, events[m], id) == None
  }

  /** The request was sent at j with a live signal, and nothing has decided it since. */
  ghost predicate PendingSince(max: nat, read: Reader, events: seq<Event>, j: nat, id: Id) {
    SentAt(max, read, events, j, id) && !events[j].aborted && Quiet(max, read, events, j, |events|, id)
  }

  /** The request was sent at j, and the k-th event is the first after it to decide it, as `o`. */
  ghost predicate DecidedAt(max: nat, read: Reader, events: seq<Event>, j: nat, k: nat, id: Id, o: Outcome) {
    && SentAt(max, read, events, j, id) && !events[j].aborted && j < k < |events| && Quiet(max, read, events, j, k, id)
    && Verdict(Before(max, read, events, k).buffer, read, events[k], id) == Some(o)
  }

  /** The request was sent at j with a signal that was aborted already. */
  ghost predicate SentAborted(max: nat, read: Reader, events: seq<Event>, j: nat, id: Id) {
    SentAt(max, read, events, j, id) && events[j].aborted
  }

  ghost predicate DecidedAs(max: nat, read: Reader, events: seq<Event>, id: Id, o: Outcome) {
    || (o == Cancelled && exists j :: SentAborted(max, read, events, j, id))
    || (exists j, k :: DecidedAt(max, read, events, j, k, id, o))
  }

  /** One call was made on the promise of the request, and it settled it as `o`. */
  ghost predicate RecordedAs(b: Book, id: Id, o: Outcome) { id in b.calls && b.calls[id] == [o] }

  ghost predicate Fate(max: nat, read: Reader, events: seq<Event>, id: Id) {
    var b := Run(INITIAL, max, read, events).book;
    && (id in b.pending <==> exists j :: PendingSince(max, read, events, j, id))
    && (forall o :: RecordedAs(b, id, o) <==> DecidedAs(max, read, events, id, o))
  }

  lemma {:induction false} RunLast(s: State, max: nat, read: Reader, events: seq<Event>, e: Event)
    ensures Run(s, max, read, events + [e]) == Step(Run(s, max, read, events), max, read, e)
    decreases |events|
  {
    if events == [] {
      assert [e][1..] == [] && events + [e] == [e];
    } else {
      assert (events + [e])[1..] == events[1..] + [e];
      RunLast(Step(s, max, read, events[0]), max, read, events[1..], e);
    }
  }

  lemma BeforeSame(max: nat, read: Reader, events: seq<Event>, e: Event, m: nat)
    requires m <= |events|
    ensures Before(max, read, events + [e], m) == Before(max, read, events, m)
  {
    assert (events + [e])[..m] == events[..m];
  }

  lemma SentLonger(max: nat, read: Reader, events: seq<Event>, e: Event, j: nat, id: Id)
    requires j < |events|
    ensures SentAt(max, read, events + [e], j, id) <==> SentAt(max, read, events, j, id)
    ensures SentAborted(max, read, events + [e], j, id) <==> SentAborted(max, read, events, j, id)
  {
    BeforeSame(max, read, events, e, j);
  }

  lemma QuietPrefix(max: nat, read: Reader, events: seq<Event>, e: Event, j: nat, k: nat, id: Id)
    requires k <= |events|
    ensures Quiet(max, read, events + [e], j, k, id) <==> Quiet(max, read, events, j, k, id)
  {
    var longer := events + [e];
    forall m | 0 <= m < |events|
      ensures Verdict(Before(max, read, longer, m).buffer, read, longer[m], id)
           == Verdict(Before(max, read, events, m).buffer, read, events[m], id)
    {
      BeforeSame(max, read, events, e, m);
    }
  }

  lemma QuietToEnd(max: nat, read: Reader, events: seq<Event>, e: Event, j: nat, id: Id)
    requires j < |events|
    ensures Quiet(max, read, events + [e], j, |events| + 1, id)
      <==> Quiet(max, read, events, j, |events|, id)
           && Verdict(Run(INITIAL, max, read, events).buffer, read, e, id) == None
  {
    var longer, n := events + [e], |events|;
    QuietPrefix(max, read, events, e, j, n, id);
    assert longer[..n] == events && longer[n] == e;
    assert Verdict(Before(max, read, longer, n).buffer, read, longer[n], id)
        == Verdict(Run(INITIAL, max, read, events).buffer, read, e, id);
  }

  lemma StillPending(max: nat, read: Reader, events: seq<Event>, e: Event, id: Id)
    requires Fate(max, read, events, id)
    requires id in Step(Run(INITIAL, max, read, events), max, read, e).book.pending
    ensures exists j :: PendingSince(max, read, events + [e], j, id)
  {
    var longer, n, s := events + [e], |events|, Run(INITIAL, max, read, events);
    RunKeeps(INITIAL, max, read, events);
    if id in s.book.pending {
      EventDecides(s, max, read, e, id);
      var j :| PendingSince(max, read, events, j, id);
      SentLonger(max, read, events, e, j, id);
      QuietToEnd(max, read, events, e, j, id);
      assert PendingSince(max, read, longer, j, id);
    } else {
      OnlySendsIssue(s, max, read, e, id);
      assert longer[..n] == events && longer[n] == e;
      assert PendingSince(max, read, longer, n, id);
    }
  }

  lemma PendingSinceMeans(max: nat, read: Reader, events: seq<Event>, e: Event, j: nat, id: Id)
    requires Fate(max, read, events, id) && PendingSince(max, read, events + [e], j, id)
    ensures id in Step(Run(INITIAL, max, read, events), max, read, e).book.pending
  {
    var longer, n, s := events + [e], |events|, Run(INITIAL, max, read, events);
    RunKeeps(INITIAL, max, read, events);
    if j < n {
      SentLonger(max, read, events, e, j, id);
      QuietToEnd(max, read, events, e, j, id);
      assert PendingSince(max, read, events, j, id);
      EventDecides(s, max, read, e, id);
    } else {
      assert longer[..n] == events && longer[n] == e;
      assert Accepts(s.book, max, e, id);
      OnlySendsIssue(s, max, read, e, id);
    }
  }

  lemma DecidedEarlier(max: nat, read: Reader, events: seq<Event>, e: Event, id: Id, o: Outcome)
    requires DecidedAs(max, read, events, id, o)
    ensures DecidedAs(max, read, events + [e], id, o)
  {
    if o == Cancelled && exists j :: SentAborted(max, read, events, j, id) {
      var j :| SentAborted(max, read, events, j, id);
      SentLonger(max, read, events, e, j, id);
      assert SentAborted(max, read, events + [e], j, id);
    } else {
      var j, k :| DecidedAt(max, read, events, j, k, id, o);
      DecidedLonger(max, read, events, e, j, k, id, o);
      assert DecidedAt(max, read, events + [e], j, k, id, o);
    }
  }

  lemma DecidedLonger(max: nat, read: Reader, events: seq<Event>, e: Event, j: nat, k: nat, id: Id, o: Outcome)
    requires k < |events|
    ensures DecidedAt(max, read, events + [e], j, k, id, o) <==> DecidedAt(max, read, events, j, k, id, o)
  {
    if j < k {
      SentLonger(max, read, events, e, j, id);
      QuietPrefix(max, read, events, e, j, k, id);
      BeforeSame(max, read, events, e, k);
    }
  }

  /** A decision by the last event is one about a request that was pending until then. */
  lemma DecidedLast(max: nat, read: Reader, events: seq<Event>, e: Event, j: nat, id: Id, o: Outcome)
    requires j < |events|
    ensures DecidedAt(max, read, events + [e], j, |events|, id, o)
      <==> PendingSince(max, read, events, j, id)
           && Verdict(Run(INITIAL, max, read, events).buffer, read, e, id) == Some(o)
  {
    SentLonger(max, read, events, e, j, id);
    QuietPrefix(max, read, events, e, j, |events|, id);
    assert (events + [e])[..|events|] == events;
  }

  lemma EarlierIsRecorded(max: nat, read: Reader, events: seq<Event>, e: Event, id: Id, o: Outcome)
    requires Fate(max, read, events, id) && DecidedAs(max, read, events, id, o)
    ensures RecordedAs(Step(Run(INITIAL, max, read, events), max, read, e).book, id, o)
  {
    var s := Run(INITIAL, max, read, events);
    RunKeeps(INITIAL, max, read, events);
    assert RecordedAs(s.book, id, o);
    OnlySendsIssue(s, max, read, e, id);
  }

  lemma AbortedIsRecorded(max: nat, read: Reader, events: seq<Event>, e: Event, j: nat, id: Id)
    requires Fate(max, read, events, id) && SentAborted(max, read, events + [e], j, id)
    ensures RecordedAs(Step(Run(INITIAL, max, read, events), max, read, e).book, id, Cancelled)
  {
    var longer, n, s := events + [e], |events|, Run(INITIAL, max, read, events);
    if j < n {
      SentLonger(max, read, events, e, j, id);
      assert DecidedAs(max, read, events, id, Cancelled);
      EarlierIsRecorded(max, read, events, e, id, Cancelled);
    } else {
      RunKeeps(INITIAL, max, read, events);
      assert longer[..n] == events && longer[n] == e;
      assert Accepts(s.book, max, e, id);
      OnlySendsIssue(s, max, read, e, id);
    }
  }

  lemma VerdictIsRecorded(max: nat, read: Reader, events: seq<Event>, e: Event, j: nat, k: nat, id: Id, o: Outcome)
    requires Fate(max, read, events, id) && DecidedAt(max, read, events + [e], j, k, id, o)
    ensures RecordedAs(Step(Run(INITIAL, max, read, events), max, read, e).book, id, o)
  {
    if k < |events| {
      DecidedLonger(max, read, events, e, j, k, id, o);
      assert DecidedAs(max, read, events, id, o);
      EarlierIsRecorded(max, read, events, e, id, o);
    } else {
      DecidedLast(max, read, events, e, j, id, o);
      RunKeeps(INITIAL, max, read, events);
      EventDecides(Run(INITIAL, max, read, events), max, read, e, id);
    }
  }

  lemma DecidedIsRecorded(max: nat, read: Reader, events: seq<Event>, e: Event, id: Id, o: Outcome)
    requires Fate(max, read, events, id) && DecidedAs(max, read, events + [e], id, o)
    ensures RecordedAs(Step(Run(INITIAL, max, read, events), max, read, e).book, id, o)
  {
    if o == Cancelled && exists j :: SentAborted(max, read, events + [e], j, id) {
      var j :| SentAborted(max, read, events + [e], j, id);
      AbortedIsRecorded(max, read, events, e, j, id);
    } else {
      var j, k :| DecidedAt(max, read, events + [e], j, k, id, o);
      VerdictIsRecorded(max, read, events, e, j, k, id, o);
    }
  }

  lemma RecordedIsDecided(max: nat, read: Reader, events: seq<Event>, e: Event, id: Id, o: Outcome)
    requires Fate(max, read, events, id)
    requires RecordedAs(Step(Run(INITIAL, max, read, events), max, read, e).book, id, o)
    ensures DecidedAs(max, read, events + [e], id, o)
  {
    var longer, n, s := events + [e], |events|, Run(INITIAL, max, read, events);
    RunKeeps(INITIAL, max, read, events);
    assert longer[..n] == events && longer[n] == e;
    if id in s.book.pending {
      EventDecides(s, max, read, e, id);
      var j :| PendingSince(max, read, events, j, id);
      DecidedLast(max, read, events, e, j, id, o);
      assert DecidedAt(max, read, longer, j, n, id, o);
    } else {
      OnlySendsIssue(s, max, read, e, id);
      if Accepts(s.book, max, e, id) {
        assert SentAborted(max, read, longer, n, id);
      } else {
        assert DecidedAs(max, read, events, id, o);
        DecidedEarlier(max, read, events, e, id, o);
      }
    }
  }

  lemma FateLonger(max: nat, read: Reader, events: seq<Event>, e: Event, id: Id)
    requires Fate(max, read, events, id)
    ensures Fate(max, read, events + [e], id)
  {
    var longer := events + [e];
    RunLast(INITIAL, max, read, events, e);
    var b := Step(Run(INITIAL, max, read, events), max, read, e).book;
    if id in b.pending { StillPending(max, read, events, e, id); }
    forall j | PendingSince(max, read, longer, j, id) ensures id in b.pending {
      PendingSinceMeans(max, read, events, e, j, id);
    }
    forall o ensures RecordedAs(b, id, o) <==> DecidedAs(max, read, longer, id, o) {
      if DecidedAs(max, read, longer, id, o) { DecidedIsRecorded(max, read, events, e, id, o); }
      if RecordedAs(b, id, o) { RecordedIsDecided(max, read, events, e, id, o); }
    }
  }

  lemma {:induction false} FateOf(max: nat, read: Reader, events: seq<Event>, id: Id)
    ensures Fate(max, read, events, id)
    decreases |events|
  {
    if events == [] {
      NoFateYet(max, read, id);
    } else {
      var n := |events| - 1;
      FateOf(max, read, events[..n], id);
      FateLonger(max, read, events[..n], events[n], id);
      assert events == events[..n] + [events[n]];
    }
  }

  lemma NoFateYet(max: nat, read: Reader, id: Id)
    ensures Fate(max, read, [], id)
  {
    forall o ensures !DecidedAs(max, read, [], id, o) {}
  }

  /**
   * From a fresh process, over every run: a request is pending if and only if it was sent and nothing has decided it
   * since; and it was settled as `o`, answered with that very line, timed out, cancelled, failed to be written, or
   * rejected for that cause, if and only if the first event after its send that decides it means `o`.
   */
  lemma SettledByFirstVerdict(max: nat, read: Reader, events: seq<Event>, id: Id)
    ensures var b := Run(INITIAL, max, read, events).book;
            && (id in b.pending <==> exists j :: PendingSince(max, read, events, j, id))
            && (forall o :: RecordedAs(b, id, o) <==> DecidedAs(max, read, events, id, o))
  {
    FateOf(max, read, events, id);
  }
}
