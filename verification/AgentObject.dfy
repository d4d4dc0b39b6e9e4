/** The Agent: its reduced state, its two queues, and the runs it starts. */
module AgentObject {
  import opened Basics
  import opened AgentEvents
  import opened LoopMachine
  import opened AgentSessions
  import opened LateUpdates
  import Loops = AgentLoop
  import Budget = IterationBudget
  import Pending = PendingMessageQueue

  class Agent {
    var state: AgentState
    const steeringQueue: Pending.PendingMessageQueue
    const followUpQueue: Pending.PendingMessageQueue
    var activeRun: bool
    /** The ledger of the transcript and what is left of the last run's poll counter. */
    ghost var log: seq<Item>
    ghost var polls: nat
    ghost var skip: bool

    ghost predicate Valid()
      reads this, steeringQueue, followUpQueue
    {
      steeringQueue != followUpQueue && steeringQueue.Valid() && followUpQueue.Valid()
    }

    ghost function View(): Session
      reads this, steeringQueue, followUpQueue
    {
      Session(state,
              Queues(steeringQueue.messages, followUpQueue.messages, steeringQueue.enqueued, followUpQueue.enqueued,
                     polls, skip),
              log)
    }

    constructor (messages: seq<Message>, steeringMode: Pending.QueueMode, followUpMode: Pending.QueueMode)
      ensures Valid() && View() == AgentSessions.Begin(messages) && !activeRun
    {
      activeRun := false;
      state := AgentState(messages, None, {}, None);
      steeringQueue := new Pending.PendingMessageQueue(steeringMode);
      followUpQueue := new Pending.PendingMessageQueue(followUpMode);
      log, polls, skip := [], 0, false;
    }

    method Steer(m: Message)
      requires Valid()
      modifies steeringQueue
      ensures Valid() && View() == Do(old(View()), Steers(m))
    {
      steeringQueue.Enqueue(m);
    }

    method FollowUp(m: Message)
      requires Valid()
      modifies followUpQueue
      ensures Valid() && View() == Do(old(View()), FollowsUp(m))
    {
      followUpQueue.Enqueue(m);
    }

    method ProcessEvents(e: Event)
      modifies `state
      ensures state == Reduce(old(state), e)
    {
      match e
      case MessageStart(m) => state := state.(streaming := Some(m));
      case MessageUpdate(m) => state := state.(streaming := Some(m));
      case MessageEnd(m) => state := state.(streaming := None, messages := state.messages + [m]);
      case ToolStart(c) => state := state.(pendingToolCalls := state.pendingToolCalls + {c.id});
      case ToolEnd(c, _) => state := state.(pendingToolCalls := state.pendingToolCalls - {c.id});
      case TurnEnd(m, _) =>
        if m.Reply? && m.assistant.errorMessage != "" {
          state := state.(errorMessage := Some(m.assistant.errorMessage));
        }
      case AgentEnd(_) => state := state.(streaming := None);
      case _ =>
    }

    /** The events of a run, in the order emitted. */
    method ProcessAll(events: seq<Event>)
      modifies `state
      ensures state == ReduceAll(old(state), events)
    {
      for i := 0 to |events|
        invariant ReduceAll(state, events[i..]) == ReduceAll(old(state), events)
      {
        assert events[i..][1..] == events[i + 1..];
        ProcessEvents(events[i]);
      }
    }

    /** runAgentLoop on a snapshot of the transcript: what it emits and adds. */
    method RunLoopOnce(prompts: seq<Item>, skipInitialSteeringPoll: bool, w: World, max: nat)
      returns (heard: seq<Event>, added: seq<Item>)
      requires Valid() && max >= 1
      modifies steeringQueue, followUpQueue, `polls, `skip
      ensures Valid()
      ensures var r := RunLoop(w, max, state.messages, prompts, Fresh(old(View()).queues, skipInitialSteeringPoll));
              heard == Heard(w, r) && added == r.t.added && View().queues == r.queues
    {
      var budget := new Budget.IterationBudget(max);
      var run := new Loops.AgentRun(state.messages, budget, steeringQueue, followUpQueue, skipInitialSteeringPoll);
      assert run.Limit() == max && run.Lines() == Fresh(old(View()).queues, skipInitialSteeringPoll);
      run.RunAgentLoop(prompts, w);
      ghost var r := run.View();
      assert r == RunLoop(w, max, state.messages, prompts, Fresh(old(View()).queues, skipInitialSteeringPoll));
      polls, skip := run.polls, run.skipInitialSteeringPoll;
      heard, added := Deliver(run.trace, run.strays, w.noise, 0), run.newMessages;
    }

    /** The run throws when it creates its budget; handleRunFailure closes it. */
    method FailRun(prompts: seq<Item>, skipInitialSteeringPoll: bool, w: World)
      returns (heard: seq<Event>, added: seq<Item>)
      requires Valid()
      modifies `polls, `skip
      ensures Valid()
      ensures var r := Attempt(w, 0, state.messages, prompts, Fresh(old(View()).queues, skipInitialSteeringPoll));
              heard == Heard(w, r) && added == r.t.added && View().queues == r.queues
    {
      polls, skip := 0, skipInitialSteeringPoll;
      var start := [AgentStart, TurnStart] + Pairs(Messages(prompts));
      added := prompts + [Item(Loop, Reply(w.failure))];
      heard := Deliver(start + FailureEvents(w.failure), [], w.noise, 0);
      assert [] + prompts == prompts;
    }

    /** runWithLifecycle around one run. */
    method RunWithLifecycle(prompts: seq<Item>, skipInitialSteeringPoll: bool, w: World, max: nat)
      requires Valid() && !activeRun
      modifies this, steeringQueue, followUpQueue
      ensures Valid() && !activeRun
      ensures View() == RunWith(old(View()), prompts, Fresh(old(View()).queues, skipInitialSteeringPoll), w, max)
    {
      activeRun := true;
      state := state.(streaming := None, errorMessage := None);
      var heard, added;
      if max < 1 {
        heard, added := FailRun(prompts, skipInitialSteeringPoll, w);
      } else {
        heard, added := RunLoopOnce(prompts, skipInitialSteeringPoll, w, max);
      }
      log := log + added;
      ProcessAll(heard);
      state := state.(streaming := None, pendingToolCalls := {});
      activeRun := false;
    }

    /** prompt(); false where it throws because a run is active. */
    method PromptWith(ms: seq<Message>, w: World, max: nat) returns (ok: bool)
      requires Valid()
      modifies this, steeringQueue, followUpQueue
      ensures Valid() && ok == !old(activeRun) && activeRun == old(activeRun)
      ensures View() == if ok then Do(old(View()), Prompts(ms, w, max)) else old(View())
    {
      if activeRun { return false; }
      ok := true;
      RunWithLifecycle(Tag(Prompt, ms), false, w, max);
    }

    method ContinueFromQueues(w: World, max: nat) returns (ok: bool)
      requires Valid() && !activeRun
      modifies this, steeringQueue, followUpQueue
      ensures Valid() && !activeRun
      ensures (View(), ok)
          == FromQueues(old(View()), w, max, old(steeringQueue.mode).All?, old(followUpQueue.mode).All?)
    {
      var queuedSteering := steeringQueue.Drain();
      if |queuedSteering| > 0 {
        RunWithLifecycle(Tag(Steering, queuedSteering), true, w, max);
        return true;
      }
      var queuedFollowUps := followUpQueue.Drain();
      if |queuedFollowUps| > 0 {
        RunWithLifecycle(Tag(LoopMachine.FollowUp, queuedFollowUps), false, w, max);
        return true;
      }
      return false;
    }

    /** continue(); false where it throws. */
    method Continue(w: World, max: nat) returns (ok: bool)
      requires Valid()
      modifies this, steeringQueue, followUpQueue
      ensures Valid() && activeRun == old(activeRun)
      ensures (View(), ok)
           == if old(activeRun) then (old(View()), false)
              else AgentSessions.Continue(old(View()), w, max, old(steeringQueue.mode).All?,
                                          old(followUpQueue.mode).All?)
    {
      if activeRun { return false; }
      if |state.messages| == 0 { return false; }
      if state.messages[|state.messages| - 1].Reply? {
        ok := ContinueFromQueues(w, max);
      } else {
        RunWithLifecycle([], false, w, max);
        ok := true;
      }
    }
  }
}
