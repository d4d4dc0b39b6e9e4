/** The request bookkeeping of one RPC child process, as a state machine over its synchronous steps. */
module RpcProtocol {
  import opened Basics
  import opened JsText

  const MAX_STDOUT_BUFFER_CHARS: nat := 1_048_576
  const MAX_REQUEST_IDS_PER_PROCESS: nat := 100_000

  type Id = Text

  datatype Command = Prompt | OtherCommand

  datatype Cause = ProtocolFailure | ProcessExit | Disposal

  /** How a request's promise is settled. */
  datatype Outcome = Resolved(line: Text) | TimedOut | Cancelled | WriteFailed | Rejected(cause: Cause)

  datatype SendError =
    NotRunning | PendingLimit | PromptLimit | IdentityLimit | BadId | DuplicateId | BadTimeout

  /** What a raw stdout line means to the reader; handleLine throws on a malformed one. */
  datatype Line = Blank | Malformed | Response(id: Id) | Notification

  type Reader = Text -> Line

  /** `calls[id]` lists every settling call made on the promise of request `id`. */
  datatype Book = Book(
    exited: bool, disposing: bool, pending: map<Id, Command>, used: set<Id>, calls: map<Id, seq<Outcome>>)

  datatype State = State(book: Book, buffer: Text)

  datatype Event =
    | Send(id: Id, command: Command, timeoutOk: bool, aborted: bool)
    | Stdout(chunk: Text)
    | Timeout(id: Id)
    | Abort(id: Id)
    | WriteError(id: Id)
    | Exit
    | Dispose

  const INITIAL := State(Book(false, false, map[], {}, map[]), [])

  predicate PromptPending(b: Book) {
    exists id :: id in b.pending && b.pending[id] == Prompt
  }

  /** Why `send` throws, in the order of its checks; None when it returns a promise. */
  function Refusal(b: Book, max: nat, id: Id, command: Command, timeoutOk: bool): Option<SendError> {
    if b.exited || b.disposing then Some(NotRunning)
    else if |b.pending| >= max then Some(PendingLimit)
    else if command == Prompt && PromptPending(b) then Some(PromptLimit)
    else if |b.used| >= MAX_REQUEST_IDS_PER_PROCESS then Some(IdentityLimit)
    else if id == [] || |id| > 512 then Some(BadId)
    else if id in b.used then Some(DuplicateId)
    else if !timeoutOk then Some(BadTimeout)
    else None
  }

  function Settle(b: Book, id: Id, outcome: Outcome): Book {
    if id !in b.pending then b
    else b.(pending := b.pending - {id}, calls := b.calls[id := Calls(b, id) + [outcome]])
  }

  function Calls(b: Book, id: Id): seq<Outcome> {
    if id in b.calls then b.calls[id] else []
  }

  function RejectAll(b: Book, cause: Cause): Book {
    b.(pending := map[],
       calls := map id | id in b.calls.Keys + b.pending.Keys ::
         if id in b.pending then Calls(b, id) + [Rejected(cause)] else b.calls[id])
  }

  /** A promise is handed out for `id`. */
  function Issue(b: Book, id: Id, command: Command): Book {
    b.(used := b.used + {id}, pending := b.pending[id := command], calls := b.calls[id := []])
  }

  /** A refused send changes nothing, except that a bad timeout is noticed after the id was spent. */
  function SendStep(b: Book, max: nat, id: Id, command: Command, timeoutOk: bool, aborted: bool): Book {
    match Refusal(b, max, id, command, timeoutOk)
    case Some(BadTimeout) => b.(used := b.used + {id})
    case Some(_) => b
    case None =>
      var issued := Issue(b, id, command);
      if aborted then Settle(issued, id, Cancelled) else issued
  }

  function Handle(b: Book, raw: Text, line: Line): Book {
    match line
    case Blank => b
    case Malformed => RejectAll(b, ProtocolFailure)
    case Response(id) => Settle(b, id, Resolved(raw))
    case Notification => b
  }

  /** The loop over the complete lines of the stdout buffer; a malformed line ends it. */
  function Drain(s: State, read: Reader): State
    decreases |s.buffer|
  {
    var i := IndexOf(s.buffer, LF);
    if i < 0 then s
    else
      var raw := s.buffer[..i];
      var next := State(Handle(s.book, raw, read(raw)), s.buffer[i + 1..]);
      if read(raw) == Malformed then next else Drain(next, read)
  }

  function Receive(s: State, chunk: Text, read: Reader): State {
    var buffer := s.buffer + chunk;
    if |buffer| > MAX_STDOUT_BUFFER_CHARS then State(RejectAll(s.book, ProtocolFailure), buffer)
    else Drain(State(s.book, buffer), read)
  }

  /** The steps that leave the stdout buffer alone. */
  function BookStep(b: Book, max: nat, e: Event): Book
    requires !e.Stdout?
  {
    match e
    case Send(id, command, timeoutOk, aborted) => SendStep(b, max, id, command, timeoutOk, aborted)
    case Timeout(id) => Settle(b, id, TimedOut)
    case Abort(id) => Settle(b, id, Cancelled)
    case WriteError(id) => Settle(b, id, WriteFailed)
    case Exit => if b.exited then b else RejectAll(b.(exited := true), ProcessExit)
    case Dispose => RejectAll(b.(disposing := true), Disposal)
  }

  function Step(s: State, max: nat, read: Reader, e: Event): State {
    if e.Stdout? then Receive(s, e.chunk, read) else s.(book := BookStep(s.book, max, e))
  }

  function Run(s: State, max: nat, read: Reader, events: seq<Event>): State
    decreases events
  {
    if events == [] then s else Run(Step(s, max, read, events[0]), max, read, events[1..])
  }

  // --- what every reachable state satisfies ---

  /** Every promise handed out is either pending and untouched, or was settled by exactly one call. */
  ghost predicate SettledOnce(b: Book) {
    && b.pending.Keys <= b.calls.Keys <= b.used
    && forall id :: id in b.calls ==> |b.calls[id]| == if id in b.pending then 0 else 1
  }

  ghost predicate Bounded(b: Book, max: nat) {
    && |b.pending| <= max
    && |b.used| <= MAX_REQUEST_IDS_PER_PROCESS
    && forall x, y :: x in b.pending && y in b.pending && b.pending[x] == Prompt && b.pending[y] == Prompt ==> x == y
  }

  ghost predicate Inv(b: Book, max: nat) {
    && SettledOnce(b) && Bounded(b, max)
    && (b.exited || b.disposing ==> b.pending == map[])
  }

  /** What no step undoes: spent ids stay spent, settled promises stay as they were settled, closing is final. */
  ghost predicate Extends(b: Book, c: Book) {
    && b.used <= c.used && b.calls.Keys <= c.calls.Keys
    && (forall id :: id in b.calls && id !in b.pending ==> id !in c.pending && c.calls[id] == b.calls[id])
    && (forall id :: id in b.used && id !in b.calls ==> id !in c.calls)
    && (b.exited ==> c.exited) && (b.disposing ==> c.disposing)
  }

  lemma ExtendsTransitive(a: Book, b: Book, c: Book)
    requires Extends(a, b) && Extends(b, c)
    ensures Extends(a, c)
  {}

  lemma SettleKeeps(b: Book, max: nat, id: Id, outcome: Outcome)
    requires Inv(b, max)
    ensures Inv(Settle(b, id, outcome), max) && Extends(b, Settle(b, id, outcome))
  {
    if id in b.pending {
      var c := Settle(b, id, outcome);
      assert c.pending.Keys == b.pending.Keys - {id};
      assert |c.pending| == |c.pending.Keys| <= |b.pending.Keys| == |b.pending|;
    }
  }

  lemma RejectAllKeeps(b: Book, max: nat, cause: Cause)
    requires SettledOnce(b) && Bounded(b, max)
    ensures Inv(RejectAll(b, cause), max) && Extends(b, RejectAll(b, cause))
  {}

  lemma IssueCounts(b: Book, id: Id, command: Command)
    requires id !in b.pending && id !in b.used
    ensures |Issue(b, id, command).pending| == |b.pending| + 1 && |Issue(b, id, command).used| == |b.used| + 1
  {
    var c := Issue(b, id, command);
    assert c.pending.Keys == b.pending.Keys + {id};
    assert |c.pending| == |c.pending.Keys| == |b.pending.Keys| + 1 == |b.pending| + 1;
  }

  lemma IssueKeeps(b: Book, max: nat, id: Id, command: Command)
    requires Inv(b, max) && Refusal(b, max, id, command, true) == None
    ensures Inv(Issue(b, id, command), max) && Extends(b, Issue(b, id, command))
  {
    IssueBounded(b, max, id, command);
    IssueSettledOnce(b, id, command);
  }

  lemma IssueSettledOnce(b: Book, id: Id, command: Command)
    requires SettledOnce(b) && id !in b.used
    ensures SettledOnce(Issue(b, id, command)) && Extends(b, Issue(b, id, command))
  {}

  lemma IssueBounded(b: Book, max: nat, id: Id, command: Command)
    requires SettledOnce(b) && Bounded(b, max) && Refusal(b, max, id, command, true) == None
    ensures Bounded(Issue(b, id, command), max)
  {
    IssueCounts(b, id, command);
    assert command == Prompt ==> forall z :: z in b.pending ==> b.pending[z] != Prompt;
  }

  lemma SendKeeps(b: Book, max: nat, id: Id, command: Command, timeoutOk: bool, aborted: bool)
    requires Inv(b, max)
    ensures Inv(SendStep(b, max, id, command, timeoutOk, aborted), max)
    ensures Extends(b, SendStep(b, max, id, command, timeoutOk, aborted))
  {
    if Refusal(b, max, id, command, timeoutOk) == None {
      var c := Issue(b, id, command);
      IssueKeeps(b, max, id, command);
      SettleKeeps(c, max, id, Cancelled);
      ExtendsTransitive(b, c, Settle(c, id, Cancelled));
    }
  }

  lemma HandleKeeps(b: Book, max: nat, raw: Text, line: Line)
    requires Inv(b, max)
    ensures Inv(Handle(b, raw, line), max) && Extends(b, Handle(b, raw, line))
  {
    match line
    case Malformed => RejectAllKeeps(b, max, ProtocolFailure);
    case Response(id) => SettleKeeps(b, max, id, Resolved(raw));
    case _ =>
  }

  lemma {:induction false} DrainKeeps(s: State, max: nat, read: Reader)
    requires Inv(s.book, max)
    ensures Inv(Drain(s, read).book, max) && Extends(s.book, Drain(s, read).book)
    decreases |s.buffer|
  {
    var i := IndexOf(s.buffer, LF);
    if i >= 0 {
      var raw := s.buffer[..i];
      var next := State(Handle(s.book, raw, read(raw)), s.buffer[i + 1..]);
      HandleKeeps(s.book, max, raw, read(raw));
      if read(raw) != Malformed {
        DrainKeeps(next, max, read);
        ExtendsTransitive(s.book, next.book, Drain(next, read).book);
      }
    }
  }

  lemma BookStepKeeps(b: Book, max: nat, e: Event)
    requires Inv(b, max) && !e.Stdout?
    ensures Inv(BookStep(b, max, e), max) && Extends(b, BookStep(b, max, e))
  {
    match e
    case Send(id, command, timeoutOk, aborted) => SendKeeps(b, max, id, command, timeoutOk, aborted);
    case Timeout(id) => SettleKeeps(b, max, id, TimedOut);
    case Abort(id) => SettleKeeps(b, max, id, Cancelled);
    case WriteError(id) => SettleKeeps(b, max, id, WriteFailed);
    case Exit => RejectAllKeeps(b.(exited := true), max, ProcessExit);
    case Dispose => RejectAllKeeps(b.(disposing := true), max, Disposal);
  }

  lemma StepKeeps(s: State, max: nat, read: Reader, e: Event)
    requires Inv(s.book, max)
    ensures Inv(Step(s, max, read, e).book, max) && Extends(s.book, Step(s, max, read, e).book)
  {
    if e.Stdout? {
      RejectAllKeeps(s.book, max, ProtocolFailure);
      DrainKeeps(State(s.book, s.buffer + e.chunk), max, read);
    } else {
      BookStepKeeps(s.book, max, e);
    }
  }

  /** Safety of every run from every reachable state: invariant kept, history only extended. */
  lemma {:induction false} RunKeeps(s: State, max: nat, read: Reader, events: seq<Event>)
    requires Inv(s.book, max)
    ensures Inv(Run(s, max, read, events).book, max) && Extends(s.book, Run(s, max, read, events).book)
    decreases events
  {
    if events != [] {
      var next := Step(s, max, read, events[0]);
      StepKeeps(s, max, read, events[0]);
      RunKeeps(next, max, read, events[1..]);
      ExtendsTransitive(s.book, next.book, Run(next, max, read, events[1..]).book);
    }
  }

  /**
   * From a fresh process, over any interleaving: a promise handed out is pending and unsettled, or was settled by
   * exactly one call; once the process closed all were. Pending requests stay within the limit, with at most one
   * prompt.
   */
  lemma EveryRequestSettlesOnce(max: nat, read: Reader, events: seq<Event>)
    ensures var b := Run(INITIAL, max, read, events).book;
            && |b.pending| <= max
            && (forall x, y :: x in b.pending && y in b.pending && b.pending[x] == Prompt && b.pending[y] == Prompt
                               ==> x == y)
            && (forall id :: id in b.calls ==> |b.calls[id]| == if id in b.pending then 0 else 1)
            && b.pending.Keys <= b.calls.Keys
            && (b.exited || b.disposing ==> forall id :: id in b.calls ==> |b.calls[id]| == 1)
  {
    RunKeeps(INITIAL, max, read, events);
  }

  /** A closed process never holds a pending request again and refuses every send. */
  lemma ClosedForGood(s: State, max: nat, read: Reader, events: seq<Event>, id: Id, command: Command, timeoutOk: bool)
    requires Inv(s.book, max) && (s.book.exited || s.book.disposing)
    ensures var b := Run(s, max, read, events).book;
            b.pending == map[] && Refusal(b, max, id, command, timeoutOk) == Some(NotRunning)
  {
    RunKeeps(s, max, read, events);
  }

  /** An id that was ever accepted is refused, without effect, for the rest of the process's life. */
  lemma IdsNeverReused(
    s: State, max: nat, read: Reader, events: seq<Event>, id: Id, command: Command, timeoutOk: bool, aborted: bool)
    requires Inv(s.book, max) && id in s.book.used
    ensures var b := Run(s, max, read, events).book;
            && Refusal(b, max, id, command, timeoutOk).Some?
            && SendStep(b, max, id, command, timeoutOk, aborted) == b
  {
    RunKeeps(s, max, read, events);
  }
}
