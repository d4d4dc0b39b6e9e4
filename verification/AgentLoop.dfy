/** runAgentLoop as imperative code: nested loops over the context, the new messages, the queues and the budget. */
module AgentLoop {
  import opened Basics
  import opened AgentEvents
  import opened LoopMachine
  import AssistantStream
  import ToolBatch
  import ToolExecutors
  import Budget = IterationBudget
  import Pending = PendingMessageQueue

  /** One run. `newMessages` and `pending` carry the source of each message for the ledger. */
  class AgentRun {
    const budget: Budget.IterationBudget
    /** The calls others had taken from the budget when the run began. */
    const used: nat
    const steeringQueue: Pending.PendingMessageQueue
    const followUpQueue: Pending.PendingMessageQueue
    var messages: seq<Message>
    var newMessages: seq<Item>
    var pending: seq<Item>
    var firstTurn: bool
    var skipInitialSteeringPoll: bool
    /** The events handed to emit, the tools that ended, and how often the queues were polled. */
    var trace: seq<Event>
    var strays: seq<ToolBatch.Stray>
    var polls: nat
    ghost var root: seq<Message>
    ghost var from: nat
    ghost var ends: seq<Transcript>
    ghost var turns: nat
    ghost var done: bool

    ghost function Written(): Transcript
      reads this
    {
      Transcript(messages, newMessages, trace, root, from)
    }

    ghost function Lines(): Queues
      reads this, steeringQueue, followUpQueue
    {
      Queues(steeringQueue.messages, followUpQueue.messages, steeringQueue.enqueued, followUpQueue.enqueued, polls,
             skipInitialSteeringPoll)
    }

    /** The calls of this run so far, and how many it may make. */
    function Calls(): nat
      reads budget
    {
      if used <= budget.usedTotal then budget.usedTotal - used else 0
    }

    function Limit(): nat { if used <= budget.maxTotal then budget.maxTotal - used else 0 }

    ghost function View(): Run
      reads this, budget, steeringQueue, followUpQueue
    {
      Run(Written(), ends, strays, Lines(), pending, Calls(), turns, firstTurn, done)
    }

    ghost predicate Valid()
      reads this, budget, steeringQueue, followUpQueue
    {
      && steeringQueue != followUpQueue && steeringQueue.Valid() && followUpQueue.Valid()
      && budget.Valid() && used <= budget.usedTotal
    }

    /** The caller's own budget, or a new one, with whatever it has left. */
    constructor (context: seq<Message>, allowance: Budget.IterationBudget, steering: Pending.PendingMessageQueue,
                 followUps: Pending.PendingMessageQueue, skip: bool)
      requires allowance.Valid() && steering != followUps && steering.Valid() && followUps.Valid()
      ensures Valid() && budget == allowance && Limit() == allowance.Remaining()
      ensures steeringQueue == steering && followUpQueue == followUps
      ensures View() == Run(Transcript(context, [], [], context, 0), [], [], Lines(), [], 0, 0, true, false)
      ensures polls == 0 && skipInitialSteeringPoll == skip
    {
      budget, used := allowance, allowance.usedTotal;
      steeringQueue, followUpQueue := steering, followUps;
      messages, newMessages, pending, trace := context, [], [], [];
      firstTurn, skipInitialSteeringPoll, polls := true, skip, 0;
      strays, root, from, ends, turns, done := [], context, 0, [], 0, false;
    }

    method Emit(e: Event)
      modifies `trace
      ensures trace == old(trace) + [e]
    {
      trace := trace + [e];
    }

    /** Messages enter the transcript, each between its own start and end. */
    method Inject(items: seq<Item>)
      modifies `messages, `newMessages, `trace
      ensures Written() == LoopMachine.Inject(old(Written()), items)
    {
      for i := 0 to |items|
        invariant Written() == LoopMachine.Inject(old(Written()), items[..i])
      {
        InjectOne(old(Written()), items[..i], items[i]);
        assert items[..i] + [items[i]] == items[..i + 1];
        Emit(MessageStart(items[i].message));
        Emit(MessageEnd(items[i].message));
        messages := messages + [items[i].message];
        newMessages := newMessages + [items[i]];
      }
      assert items[..|items|] == items;
    }

    method StartTurn()
      modifies `trace, `firstTurn, `turns
      ensures !firstTurn && turns == old(turns) + 1
      ensures trace == if old(firstTurn) then old(trace) else old(trace) + [TurnStart]
    {
      if !firstTurn { Emit(TurnStart); } else { firstTurn := false; }
      turns := turns + 1;
    }

    method InjectPending()
      modifies `messages, `newMessages, `trace, `pending
      ensures pending == [] && Written() == LoopMachine.Inject(old(Written()), old(pending))
    {
      if |pending| > 0 {
        Inject(pending);
        pending := [];
      } else {
        assert LoopMachine.Inject(Written(), []) == Written();
      }
    }

    method Begin()
      modifies `messages, `newMessages, `trace, `pending, `firstTurn, `turns
      ensures View() == LoopMachine.Begin(old(View()))
    {
      StartTurn();
      InjectPending();
    }

    method EndTurn(a: Assistant, results: seq<Message>)
      modifies `trace, `ends
      ensures View() == LoopMachine.EndTurn(old(View()), a, results)
    {
      Emit(TurnEnd(Reply(a), results));
      ends := ends + [Written()];
    }

    method EndRun()
      modifies `trace, `done
      ensures View() == LoopMachine.EndRun(old(View()))
    {
      Emit(AgentEnd(Messages(newMessages)));
      done := true;
    }

    method Exhaust(w: World)
      modifies `messages, `newMessages, `trace, `ends, `done
      ensures View() == LoopMachine.Exhaust(w, old(View()))
    {
      Inject([Item(Loop, Reply(w.exhausted))]);
      EndTurn(w.exhausted, []);
      EndRun();
    }

    /** Messages queued by steer() and followUp() since the last poll, and the modes at this poll. */
    method Arrive(w: World)
      requires Valid()
      modifies steeringQueue, followUpQueue, `polls
      ensures Valid() && Lines() == LoopMachine.Arrive(w, old(Lines()))
      ensures steeringQueue.mode == (if w.steerAll(old(polls)) then Pending.All else Pending.OneAtATime)
      ensures followUpQueue.mode == (if w.followAll(old(polls)) then Pending.All else Pending.OneAtATime)
    {
      EnqueueAll(steeringQueue, w.steered(polls));
      EnqueueAll(followUpQueue, w.followedUp(polls));
      steeringQueue.mode := if w.steerAll(polls) then Pending.All else Pending.OneAtATime;
      followUpQueue.mode := if w.followAll(polls) then Pending.All else Pending.OneAtATime;
      polls := polls + 1;
    }

    /** getSteeringMessages. */
    method PollSteering(w: World) returns (drained: seq<Message>)
      requires Valid()
      modifies steeringQueue, followUpQueue, `polls, `skipInitialSteeringPoll
      ensures Valid() && (drained, Lines()) == LoopMachine.PollSteering(w, old(Lines()))
    {
      Arrive(w);
      drained := [];
      if skipInitialSteeringPoll {
        skipInitialSteeringPoll := false;
      } else {
        drained := steeringQueue.Drain();
      }
    }

    /** getFollowUpMessages. */
    method PollFollowUps(w: World) returns (drained: seq<Message>)
      requires Valid()
      modifies steeringQueue, followUpQueue, `polls
      ensures Valid() && (drained, Lines()) == LoopMachine.PollFollowUps(w, old(Lines()))
    {
      Arrive(w);
      drained := followUpQueue.Drain();
    }

    /** The poll for steering messages, at the start of a run and after each turn. */
    method Steer(w: World)
      requires Valid()
      modifies steeringQueue, followUpQueue, `polls, `pending, `skipInitialSteeringPoll
      ensures Valid() && View() == LoopMachine.Steer(w, old(View()))
    {
      var drained := PollSteering(w);
      pending := Tag(Steering, drained);
    }

    /** The poll for follow-ups, at the point where the agent would stop. */
    method WouldStop(w: World)
      requires Valid()
      modifies steeringQueue, followUpQueue, `polls, `pending, `trace, `done
      ensures Valid() && View() == LoopMachine.WouldStop(w, old(View()))
    {
      var followUps := PollFollowUps(w);
      if |followUps| > 0 {
        Emit(FollowUpStart);
        pending := Tag(FollowUp, followUps);
      } else {
        EndRun();
      }
    }

    /** streamAssistantResponse. */
    method Receive(r: AssistantStream.Response)
      modifies `messages, `newMessages, `trace
      ensures Written() == LoopMachine.Receive(old(Written()), r)
    {
      var patched, events := AssistantStream.StreamAssistantResponse(messages, r);
      messages, trace := patched, trace + events;
      newMessages := newMessages + [Item(Loop, Reply(r.final))];
    }

    /** The tool calls of the n-th reply. */
    method RunTools(w: World, n: nat, a: Assistant) returns (batch: ToolBatch.Batch)
      modifies `messages, `newMessages, `trace, `strays
      ensures batch == BatchOf(w, n, a)
      ensures View() == LoopMachine.RunTools(old(View()), batch)
    {
      batch := Execute(w, n, a);
      strays := strays + ToolBatch.Shift(batch.piece.strays, |trace|);
      trace := trace + batch.piece.trace;
      messages := messages + batch.messages;
      newMessages := newMessages + Tag(Loop, batch.messages);
    }

    /** prepareNextTurn after the n-th reply. */
    method PrepareNext(w: World, n: nat)
      modifies `messages, `root, `from
      ensures View() == LoopMachine.PrepareNext(w, n, old(View()))
    {
      if w.handsBack(n).Some? {
        messages := w.handsBack(n).value;
        root, from := messages, |newMessages|;
      }
    }

    /** The rest of a turn after the n-th reply; `done` says that the run has ended. */
    method React(w: World, n: nat, a: Assistant) returns (hasMoreToolCalls: bool, ended: bool)
      requires Valid() && !done
      modifies this, steeringQueue, followUpQueue
      ensures Valid() && (View(), hasMoreToolCalls) == LoopMachine.React(w, n, old(View()), a) && ended == done
    {
      if a.stopReason == Error || a.stopReason == Aborted {
        EndTurn(a, []);
        EndRun();
        return false, true;
      }
      var batch := RunTools(w, n, a);
      EndTurn(a, batch.messages);
      PrepareNext(w, n);
      if w.stops(n) {
        EndRun();
        return false, true;
      }
      Steer(w);
      return !batch.terminate, false;
    }

    /** The n-th provider call, already paid for. */
    method Answer(w: World, n: nat) returns (hasMoreToolCalls: bool, ended: bool)
      requires Valid() && !done
      modifies this, steeringQueue, followUpQueue
      ensures Valid() && ended == done
      ensures (View(), hasMoreToolCalls) == LoopMachine.React(w, n, Received(w, n, old(View())), w.respond(n).final)
    {
      Receive(w.respond(n));
      hasMoreToolCalls, ended := React(w, n, w.respond(n).final);
    }

    /** Every provider call consumes from the budget. */
    method Consume() returns (ok: bool)
      requires Valid()
      modifies budget
      ensures Valid() && ok == (old(View()).calls < Limit())
      ensures View() == if ok then Paid(old(View())) else old(View())
    {
      ok := budget.Consume();
    }

    /** One pass of the inner loop. */
    method Turn(w: World) returns (hasMoreToolCalls: bool, ended: bool)
      requires Valid() && !done
      modifies this, budget, steeringQueue, followUpQueue
      ensures Valid() && (View(), hasMoreToolCalls) == LoopMachine.Turn(w, Limit(), old(View()))
      ensures ended == done
    {
      Begin();
      var n := Calls();
      var ok := Consume();
      if !ok {
        Exhaust(w);
        return false, true;
      }
      hasMoreToolCalls, ended := Answer(w, n);
    }

    /** runLoop. */
    method RunLoop(w: World)
      requires Valid() && !done
      modifies this, budget, steeringQueue, followUpQueue
      ensures Valid() && View() == Play(w, Limit(), LoopMachine.Steer(w, old(View())))
    {
      ghost var max := Limit();
      ghost var goal := Play(w, max, LoopMachine.Steer(w, View()));
      Steer(w);
      while true
        invariant Valid() && !done && Play(w, max, View()) == goal
        decreases Measure(max, View())
      {
        ghost var outer := View();
        var hasMoreToolCalls := true;
        while hasMoreToolCalls || |pending| > 0
          invariant Valid() && !done && Play(w, max, Rejoin(w, hasMoreToolCalls, View())) == goal
          invariant Measure(max, View()) < Measure(max, outer) || (hasMoreToolCalls && View() == outer)
          decreases Measure(max, View())
        {
          PlayTurn(w, max, View());
          var ended;
          hasMoreToolCalls, ended := Turn(w);
          if ended { return; }
        }
        StopOrGoOn(w, max, View());
        WouldStop(w);
        if |pending| == 0 { return; }
      }
    }

    /** The start of the run and its prompts. */
    method Open(prompts: seq<Item>)
      requires newMessages == [] && trace == [] && strays == [] && pending == [] && ends == []
      requires Calls() == 0 && turns == 0 && firstTurn && !done && root == messages && from == 0
      modifies `messages, `newMessages, `trace
      ensures View() == LoopMachine.Opening(old(messages), prompts, Lines())
    {
      Emit(AgentStart);
      Emit(TurnStart);
      assert trace == [AgentStart, TurnStart];
      Inject(prompts);
    }

    /** runAgentLoop, and with no prompts runAgentLoopContinue, on a run that has just been set up. */
    method RunAgentLoop(prompts: seq<Item>, w: World)
      requires Valid() && !done && newMessages == [] && trace == [] && strays == [] && pending == [] && ends == []
      requires Calls() == 0 && turns == 0 && firstTurn && root == messages && from == 0
      modifies this, budget, steeringQueue, followUpQueue
      ensures Valid() && View() == LoopMachine.RunLoop(w, Limit(), old(messages), prompts, old(Lines()))
    {
      Open(prompts);
      RunLoop(w);
    }
  }

  /** Where the inner loop's condition sends a run that is not over. */
  ghost function Rejoin(w: World, more: bool, s: Run): Run {
    if more || s.pending != [] then s else LoopMachine.WouldStop(w, s)
  }

  lemma PlayTurn(w: World, max: nat, s: Run)
    requires !s.done
    ensures var (r, more) := LoopMachine.Turn(w, max, s);
            if r.done then Play(w, max, s) == r
            else Play(w, max, s) == Play(w, max, Rejoin(w, more, r)) && Measure(max, r) < Measure(max, s)
  {}

  lemma StopOrGoOn(w: World, max: nat, s: Run)
    requires !s.done && s.pending == []
    ensures var r := LoopMachine.WouldStop(w, s);
            (r.done <==> r.pending == []) && (r.done ==> Play(w, max, r) == r) && Measure(max, r) <= Measure(max, s)
  {}

  /** The batch of the n-th reply. */
  method Execute(w: World, n: nat, a: Assistant) returns (batch: ToolBatch.Batch)
    ensures batch == BatchOf(w, n, a)
  {
    batch := ToolBatch.Batch([], true, ToolBatch.SILENCE);
    if |a.calls| > 0 {
      if a.stopReason == Length {
        batch := ToolExecutors.FailToolCallsFromTruncatedMessage(a.calls);
      } else {
        batch := ToolExecutors.ExecuteToolCalls(a.calls, w.serial, w.serialTool, w.tools(n));
      }
    }
  }

  method EnqueueAll(q: Pending.PendingMessageQueue, ms: seq<Message>)
    requires q.Valid()
    modifies q
    ensures q.Valid() && q.messages == old(q.messages) + ms && q.enqueued == old(q.enqueued) + ms
  {
    for i := 0 to |ms|
      invariant q.Valid() && q.messages == old(q.messages) + ms[..i] && q.enqueued == old(q.enqueued) + ms[..i]
    {
      Assoc(old(q.messages), ms[..i], [ms[i]]);
      Assoc(old(q.enqueued), ms[..i], [ms[i]]);
      assert ms[..i] + [ms[i]] == ms[..i + 1];
      q.Enqueue(ms[i]);
    }
    assert ms[..|ms|] == ms;
  }

  function Injected(t: Transcript, item: Item): Transcript {
    t.(context := t.context + [item.message], added := t.added + [item],
       trace := t.trace + [MessageStart(item.message)] + [MessageEnd(item.message)])
  }

  /** Injecting one more message. */
  lemma InjectOne(t: Transcript, items: seq<Item>, item: Item)
    ensures LoopMachine.Inject(t, items + [item]) == Injected(LoopMachine.Inject(t, items), item)
  {
    var ms, m := Messages(items), item.message;
    assert Messages(items + [item]) == ms + [m];
    assert (ms + [m])[..|ms|] == ms;
    assert Pairs(ms + [m]) == Pairs(ms) + Pair(m);
    Assoc(t.context, ms, [m]);
    Assoc(t.added, items, [item]);
    assert t.trace + Pairs(ms) + [MessageStart(m)] + [MessageEnd(m)] == t.trace + Pairs(ms + [m]);
  }
}
