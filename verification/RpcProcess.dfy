/** The RPC child process object: its fields and handlers, proved against RpcProtocol. */
module RpcProcess {
  import opened Basics
  import opened JsText
  import opened RpcProtocol

  /** What JSON.parse yields for a line, as far as handleLine looks; None is a throw. */
  datatype Json = JsonResponse(id: Id) | JsonOther

  /** handleLine's reading of a raw line; a response without an id is ignored. */
  function ReadLine(raw: Text, json: Text -> Option<Json>): Line {
    if Trim(raw) == [] then Blank
    else match json(Trim(raw))
      case None => Malformed
      case Some(JsonOther) => Notification
      case Some(JsonResponse(id)) => if id == [] then Notification else Response(id)
  }

  /** A line answers request `id` exactly when it parses as a response with that id, and fails if it does not parse. */
  lemma ReadLineIff(raw: Text, json: Text -> Option<Json>, id: Id)
    ensures ReadLine(raw, json) == Response(id)
      <==> Trim(raw) != [] && json(Trim(raw)) == Some(JsonResponse(id)) && id != []
    ensures ReadLine(raw, json) == Malformed <==> Trim(raw) != [] && json(Trim(raw)).None?
  {}

  lemma RejectAllByOne(b: Book, id: Id, cause: Cause)
    requires id in b.pending
    ensures RejectAll(Settle(b, id, Rejected(cause)), cause) == RejectAll(b, cause)
  {
    var c := Settle(b, id, Rejected(cause));
    assert c.calls.Keys + c.pending.Keys == b.calls.Keys + b.pending.Keys;
  }

  lemma RejectNone(b: Book, cause: Cause)
    requires b.pending == map[]
    ensures RejectAll(b, cause) == b
  {
    assert RejectAll(b, cause).calls == b.calls;
  }

  class RpcProcessInstance {
    const maxPendingRequests: nat
    const read: Reader
    var exited: bool
    var disposing: bool
    var stdoutBuffer: Text
    var pendingRequests: map<Id, Command>
    var usedRequestIds: set<Id>
    ghost var calls: map<Id, seq<Outcome>>

    ghost function Ledger(): Book
      reads this
    {
      Book(exited, disposing, pendingRequests, usedRequestIds, calls)
    }

    ghost function View(): State
      reads this
    {
      State(Ledger(), stdoutBuffer)
    }

    constructor (maxPendingRequests: nat, json: Text -> Option<Json>)
      ensures View() == INITIAL
      ensures this.maxPendingRequests == maxPendingRequests && this.read == (raw => ReadLine(raw, json))
    {
      this.maxPendingRequests, read := maxPendingRequests, raw => ReadLine(raw, json);
      exited, disposing, stdoutBuffer := false, false, [];
      pendingRequests, usedRequestIds, calls := map[], {}, map[];
    }

    /** Deletes the entry, runs its cleanup and settles its promise. */
    method SettlePending(id: Id, outcome: Outcome)
      modifies this`pendingRequests, this`calls
      ensures Ledger() == Settle(old(Ledger()), id, outcome)
    {
      if id in pendingRequests {
        pendingRequests := pendingRequests - {id};
        calls := calls[id := (if id in calls then calls[id] else []) + [outcome]];
      }
    }

    method RejectAllPending(cause: Cause)
      modifies this`pendingRequests, this`calls
      ensures Ledger() == RejectAll(old(Ledger()), cause)
    {
      while pendingRequests != map[]
        invariant RejectAll(Ledger(), cause) == RejectAll(old(Ledger()), cause)
        invariant exited == old(exited) && disposing == old(disposing) && usedRequestIds == old(usedRequestIds)
        decreases pendingRequests.Keys
      {
        var id :| id in pendingRequests;
        RejectAllByOne(Ledger(), id, cause);
        SettlePending(id, Rejected(cause));
      }
      RejectNone(Ledger(), cause);
    }

    method Send(id: Id, command: Command, timeoutOk: bool, aborted: bool) returns (refused: Option<SendError>)
      modifies this`pendingRequests, this`usedRequestIds, this`calls
      ensures refused == Refusal(old(Ledger()), maxPendingRequests, id, command, timeoutOk)
      ensures View() == Step(old(View()), maxPendingRequests, read, Event.Send(id, command, timeoutOk, aborted))
    {
      if exited || disposing { return Some(NotRunning); }
      if |pendingRequests| >= maxPendingRequests { return Some(PendingLimit); }
      if command == Prompt && exists other :: other in pendingRequests && pendingRequests[other] == Prompt {
        return Some(PromptLimit);
      }
      if |usedRequestIds| >= MAX_REQUEST_IDS_PER_PROCESS { return Some(IdentityLimit); }
      if id == [] || |id| > 512 { return Some(BadId); }
      if id in usedRequestIds { return Some(DuplicateId); }
      usedRequestIds := usedRequestIds + {id};
      if !timeoutOk { return Some(BadTimeout); }
      pendingRequests := pendingRequests[id := command];
      calls := calls[id := []];
      if aborted { SettlePending(id, Cancelled); }
      return None;
    }

    method OnTimeout(id: Id)
      modifies this`pendingRequests, this`calls
      ensures View() == Step(old(View()), maxPendingRequests, read, Timeout(id))
    {
      SettlePending(id, TimedOut);
    }

    method OnAbort(id: Id)
      modifies this`pendingRequests, this`calls
      ensures View() == Step(old(View()), maxPendingRequests, read, Abort(id))
    {
      SettlePending(id, Cancelled);
    }

    method OnWriteError(id: Id)
      modifies this`pendingRequests, this`calls
      ensures View() == Step(old(View()), maxPendingRequests, read, WriteError(id))
    {
      SettlePending(id, WriteFailed);
    }

    method MarkExited()
      modifies this`exited, this`pendingRequests, this`calls
      ensures View() == Step(old(View()), maxPendingRequests, read, Exit)
    {
      if exited { return; }
      exited := true;
      RejectAllPending(ProcessExit);
    }

    method Dispose()
      modifies this`disposing, this`pendingRequests, this`calls
      ensures View() == Step(old(View()), maxPendingRequests, read, Event.Dispose)
    {
      disposing := true;
      RejectAllPending(Disposal);
    }

    /** handleLine, with the protocol failure that a line it cannot read leads to. */
    method HandleLine(raw: Text) returns (readable: bool)
      modifies this`pendingRequests, this`calls
      ensures Ledger() == Handle(old(Ledger()), raw, read(raw)) && readable == (read(raw) != Malformed)
    {
      match read(raw)
      case Blank => readable := true;
      case Notification => readable := true;
      case Response(id) => SettlePending(id, Resolved(raw)); readable := true;
      case Malformed => RejectAllPending(ProtocolFailure); readable := false;
    }

    /** The stdout "data" listener. */
    method OnStdout(chunk: Text)
      modifies this`stdoutBuffer, this`pendingRequests, this`calls
      ensures View() == Step(old(View()), maxPendingRequests, read, Stdout(chunk))
    {
      stdoutBuffer := stdoutBuffer + chunk;
      if |stdoutBuffer| > MAX_STDOUT_BUFFER_CHARS {
        RejectAllPending(ProtocolFailure);
        return;
      }
      ghost var start := View();
      while true
        invariant Drain(View(), read) == Drain(start, read)
        invariant exited == old(exited) && disposing == old(disposing)
        decreases |stdoutBuffer|
      {
        var newlineIndex := IndexOf(stdoutBuffer, LF);
        if newlineIndex == -1 { return; }
        var raw := stdoutBuffer[..newlineIndex];
        stdoutBuffer := stdoutBuffer[newlineIndex + 1..];
        var readable := HandleLine(raw);
        if !readable { return; }
      }
    }
  }
}
