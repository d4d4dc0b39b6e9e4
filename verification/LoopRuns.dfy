/** Whole runs of the loop: transcript agreement, the event grammar, and termination within the budget. */
module LoopRuns {
  import opened Basics
  import opened AgentEvents
  import opened EventGrammar
  import opened AssistantStream
  import opened LateUpdates
  import opened LoopMachine
  import opened TurnTraces
  import opened LoopSafety

  // --- facts that need nothing of the streams ---

  /** Stale partials left behind by the first `n` provider calls. */
  function Stale(w: World, n: nat): nat {
    if n == 0 then 0 else Stale(w, n - 1) + Excess(w.respond(n - 1))
  }

  /** The first `n` streams started at most once each. */
  ghost predicate AllTame(w: World, n: nat) { forall m: nat :: m < n ==> Tame(w.respond(m)) }

  /** prepareNextTurn never hands back another context. */
  ghost predicate KeepsContext(w: World) { forall n: nat :: w.handsBack(n).None? }

  ghost predicate Rooted(base: seq<Message>, t: Transcript) { t.root == base && t.from == 0 }

  ghost predicate AllRooted(base: seq<Message>, ts: seq<Transcript>) {
    forall i :: 0 <= i < |ts| ==> Rooted(base, ts[i])
  }

  /**
   * Closed messages are the added ones, turns are counted, no ended tool is heard; and a context that was never
   * replaced is longer by the stale partials.
   */
  ghost predicate Loose(base: seq<Message>, w: World, s: Run) {
    && Told(s.t) && Counted(s) && AllShut(s.strays)
    && (KeepsContext(w) ==>
          && Rooted(base, s.t) && AllRooted(base, s.ends)
          && |s.t.context| == |base| + |s.t.added| + Stale(w, s.calls))
  }

  lemma InnerLoose(base: seq<Message>, w: World, s: Run, items: seq<Item>, events: seq<Event>)
    requires Loose(base, w, s) && Inner(events) && MessageEnds(events) == Messages(items)
    ensures Loose(base, w, s.(t := Emit(Add(s.t, items), events)))
  {
    AddTold(s.t, items, events);
    InnerCounts(s.t.trace, events);
  }

  lemma InjectLoose(base: seq<Message>, w: World, s: Run, items: seq<Item>)
    requires Loose(base, w, s)
    ensures Loose(base, w, s.(t := Inject(s.t, items)))
  {
    PairsInner(Messages(items));
    PairsEnd(Messages(items));
    InnerLoose(base, w, s, items, Pairs(Messages(items)));
  }

  lemma EmitLoose(base: seq<Message>, w: World, s: Run, e: Event)
    requires Loose(base, w, s) && !e.MessageEnd? && !e.TurnStart?
    ensures Loose(base, w, s.(t := Emit(s.t, [e])))
  {
    assert [e][1..] == [];
    EmitTold(s.t, [e]);
    OneCounts(s.t.trace, e);
  }

  lemma BeginLoose(base: seq<Message>, w: World, s: Run)
    requires Loose(base, w, s)
    ensures Loose(base, w, Begin(s))
  {
    var t := if s.first then s.t else Emit(s.t, [TurnStart]);
    if !s.first {
      assert [TurnStart][1..] == [];
      EmitTold(s.t, [TurnStart]);
      OneCounts(s.t.trace, TurnStart);
    }
    InjectLoose(base, w, s.(t := t, pending := [], first := false, turns := s.turns + 1), s.pending);
  }

  lemma EndTurnLoose(base: seq<Message>, w: World, s: Run, a: Assistant, results: seq<Message>)
    requires Loose(base, w, s)
    ensures Loose(base, w, EndTurn(s, a, results))
  {
    EmitLoose(base, w, s, TurnEnd(Reply(a), results));
  }

  lemma EndRunLoose(base: seq<Message>, w: World, s: Run)
    requires Loose(base, w, s)
    ensures Loose(base, w, EndRun(s))
  {
    EmitLoose(base, w, s, AgentEnd(Messages(s.t.added)));
  }

  lemma ReceiveLoose(base: seq<Message>, w: World, s: Run)
    requires Loose(base, w, s)
    ensures Loose(base, w, Replied(w, s))
  {
    var r := w.respond(s.calls);
    var item := [Item(Loop, Reply(r.final))];
    var streamed := Stream(s.t.context, r.stream, r.final, false);
    TameIff(s.t.context, r);
    StreamEnds(s.t.context, r.stream, r.final, false);
    StreamInner(s.t.context, r.stream, r.final, false);
    assert Messages(item) == [Reply(r.final)];
    AddTold(s.t, item, streamed.trace);
    InnerCounts(s.t.trace, streamed.trace);
  }

  lemma ToolsLoose(base: seq<Message>, w: World, s: Run, n: nat, a: Assistant)
    requires Loose(base, w, s)
    ensures Loose(base, w, RunTools(s, BatchOf(w, n, a)))
  {
    var b := BatchOf(w, n, a);
    BatchSound(w, n, a);
    InnerLoose(base, w, s, Tag(Loop, b.messages), b.piece.trace);
  }

  lemma ExhaustLoose(base: seq<Message>, w: World, s: Run)
    requires Loose(base, w, s)
    ensures Loose(base, w, Exhaust(w, s))
  {
    var item := [Item(Loop, Reply(w.exhausted))];
    InjectLoose(base, w, s, item);
    EndTurnLoose(base, w, s.(t := Inject(s.t, item)), w.exhausted, []);
    EndRunLoose(base, w, EndTurn(s.(t := Inject(s.t, item)), w.exhausted, []));
  }

  lemma ReactLoose(base: seq<Message>, w: World, n: nat, s: Run, a: Assistant)
    requires Loose(base, w, s)
    ensures Loose(base, w, React(w, n, s, a).0)
  {
    if Failed(a) {
      EndTurnLoose(base, w, s, a, []);
      EndRunLoose(base, w, EndTurn(s, a, []));
    } else {
      var batch := BatchOf(w, n, a);
      ToolsLoose(base, w, s, n, a);
      EndTurnLoose(base, w, RunTools(s, batch), a, batch.messages);
      PrepareLoose(base, w, n, EndTurn(RunTools(s, batch), a, batch.messages));
      var ended := PrepareNext(w, n, EndTurn(RunTools(s, batch), a, batch.messages));
      if w.stops(n) { EndRunLoose(base, w, ended); } else { SteerLoose(base, w, ended); }
    }
  }

  lemma PrepareLoose(base: seq<Message>, w: World, n: nat, s: Run)
    requires Loose(base, w, s)
    ensures Loose(base, w, PrepareNext(w, n, s))
  {}

  lemma AnswerLoose(base: seq<Message>, w: World, s: Run)
    requires Loose(base, w, s)
    ensures Loose(base, w, Answer(w, s).0)
  {
    ReceiveLoose(base, w, s);
    ReactLoose(base, w, s.calls, Replied(w, s), w.respond(s.calls).final);
  }

  lemma TurnLoose(base: seq<Message>, w: World, max: nat, s: Run)
    requires Loose(base, w, s)
    ensures Loose(base, w, Turn(w, max, s).0)
  {
    BeginLoose(base, w, s);
    if s.calls >= max { ExhaustLoose(base, w, Begin(s)); } else { AnswerLoose(base, w, Begin(s)); }
  }

  lemma SteerLoose(base: seq<Message>, w: World, s: Run)
    requires Loose(base, w, s)
    ensures Loose(base, w, Steer(w, s))
  {}

  lemma RoundLoose(base: seq<Message>, w: World, max: nat, s: Run)
    requires Loose(base, w, s)
    ensures Loose(base, w, Round(w, max, s))
  {
    TurnLoose(base, w, max, s);
    var (r, more) := Turn(w, max, s);
    var q := PollFollowUps(w, r.queues).1;
    EndRunLoose(base, w, r.(queues := q));
    EmitLoose(base, w, r.(queues := q), FollowUpStart);
  }

  // --- the budget ---

  /** A turn makes one provider call, except the one that reports the exhausted budget and ends the run. */
  predicate Within(max: nat, s: Run) {
    s.calls <= max && s.turns <= s.calls + 1 && (s.done || s.turns == s.calls) && (s.first ==> s.turns == 0)
  }

  lemma RoundWithin(w: World, max: nat, s: Run)
    requires Within(max, s) && !s.done
    ensures Within(max, Round(w, max, s)) && s.calls <= Round(w, max, s).calls <= s.calls + 1
    ensures Measure(max, Round(w, max, s)) < Measure(max, s)
  {}

  lemma {:induction false} PlayLoose(base: seq<Message>, w: World, max: nat, s: Run)
    requires Loose(base, w, s) && Within(max, s)
    ensures var r := Play(w, max, s); Loose(base, w, r) && Within(max, r) && r.done && r.calls >= s.calls
    decreases Measure(max, s)
  {
    if !s.done {
      RoundLoose(base, w, max, s);
      RoundWithin(w, max, s);
      PlayLoose(base, w, max, Round(w, max, s));
    }
  }

  lemma {:induction false} PlayKeeps(base: seq<Message>, w: World, max: nat, s: Run)
    requires Waiting(s) && Loose(base, w, s) && Within(max, s)
    requires AllTame(w, Play(w, max, s).calls)
    ensures Waiting(Play(w, max, s))
    decreases Measure(max, s)
  {
    if !s.done {
      var r := Round(w, max, s);
      RoundWithin(w, max, s);
      RoundLoose(base, w, max, s);
      PlayLoose(base, w, max, r);
      assert s.calls < max ==> r.calls == s.calls + 1;
      RoundKeeps(w, max, s);
      PlayKeeps(base, w, max, r);
    }
  }

  // --- the start of a run ---

  lemma OpeningHolds(w: World, context: seq<Message>, prompts: seq<Item>, q: Queues)
    ensures Waiting(Opening(context, prompts, q)) && Loose(context, w, Opening(context, prompts, q))
  {
    var t := Transcript(context, [], [AgentStart, TurnStart], context, 0);
    var s := Run(t, [], [], q, [], 0, 0, true, false);
    assert [AgentStart, TurnStart][1..] == [TurnStart] && [TurnStart][1..] == [];
    assert MessageEnds([TurnStart]) == [] && MessageEnds(t.trace) == [];
    assert Accept(Fresh, AgentStart) == Some(Opened) && Accept(Opened, TurnStart) == Some(QUIET);
    assert Parse(Opened, [TurnStart]) == Some(QUIET) by { ParseOne(Opened, TurnStart); }
    assert Parse(Fresh, t.trace) == Some(QUIET);
    assert context + Messages([]) == context;
    assert At(t, QUIET);
    OneCounts([AgentStart], TurnStart);
    OneCounts([], AgentStart);
    assert [AgentStart] + [TurnStart] == t.trace && [] + [AgentStart] == [AgentStart];
    assert RunAt(s, QUIET) && Loose(context, w, s);
    InjectAt(t, prompts);
    PairsInner(Messages(prompts));
    InnerAt(s, Inject(t, prompts), Pairs(Messages(prompts)));
    InjectLoose(context, w, s, prompts);
  }

  lemma StartHolds(w: World, max: nat, context: seq<Message>, prompts: seq<Item>, q: Queues)
    ensures var s := Launch(w, context, prompts, q); Waiting(s) && Loose(context, w, s) && Within(max, s)
  {
    OpeningHolds(w, context, prompts, q);
  }

  // --- the main results ---

  /** Every run ends, after at most `max` provider calls and `max + 1` turns. */
  lemma RunsEndWithinBudget(w: World, max: nat, context: seq<Message>, prompts: seq<Item>, q: Queues)
    ensures var r := RunLoop(w, max, context, prompts, q); r.done && r.calls <= max && Begun(r.t.trace) <= max + 1
  {
    StartHolds(w, max, context, prompts, q);
    PlayLoose(context, w, max, Launch(w, context, prompts, q));
  }

  /** Whenever ended tools go on calling onUpdate, the Agent hears exactly the events of the run. */
  lemma LateCallsAreDropped(w: World, max: nat, context: seq<Message>, prompts: seq<Item>, q: Queues)
    ensures var r := RunLoop(w, max, context, prompts, q); Heard(w, r) == r.t.trace
  {
    StartHolds(w, max, context, prompts, q);
    PlayLoose(context, w, max, Launch(w, context, prompts, q));
    var r := RunLoop(w, max, context, prompts, q);
    DeliveredUnchanged(r.t.trace, r.strays, w.noise, 0);
    assert r.t.trace[0..] == r.t.trace;
  }

  /**
   * The Agent's transcript always is what it held before followed by the run's messages, whatever the provider
   * streams.
   */
  lemma AgentKeepsMessages(w: World, max: nat, prompts: seq<Item>, q: Queues, agent: AgentState)
    ensures var r := RunLoop(w, max, agent.messages, prompts, q);
            && MessageEnds(Heard(w, r)) == Messages(r.t.added)
            && ReduceAll(agent, Heard(w, r)).messages == agent.messages + Messages(r.t.added)
  {
    StartHolds(w, max, agent.messages, prompts, q);
    PlayLoose(agent.messages, w, max, Launch(w, agent.messages, prompts, q));
    LateCallsAreDropped(w, max, agent.messages, prompts, q);
    ReducerTranscript(agent, RunLoop(w, max, agent.messages, prompts, q).t.trace);
  }

  /** The state of the Agent and the loop at one turn_end. */
  ghost predicate Agree(agent: AgentState, e: Transcript) {
    && e.from <= |e.added| && e.context == e.root + Messages(e.added[e.from..])
    && MessageEnds(e.trace) == Messages(e.added)
    && ReduceAll(agent, e.trace).messages == agent.messages + Messages(e.added)
    && (ReduceAll(agent, e.trace).messages == e.context <==> e.root == agent.messages + Messages(e.added[..e.from]))
    && ReduceAll(agent, e.trace).pendingToolCalls == {} && ReduceAll(agent, e.trace).streaming.None?
  }

  /** The i-th record of a run is its i-th turn_end as heard, and there the Agent and the loop agree. */
  ghost predicate AgreeAt(w: World, agent: AgentState, heard: seq<Event>, ends: seq<Transcript>, i: nat)
    requires i < |ends|
  {
    var e := ends[i];
    && |ends| == Closed(heard) && e.trace <= heard && Closed(e.trace) == i + 1
    && e.trace != [] && e.trace[|e.trace| - 1].TurnEnd?
    && Agree(agent, e)
    && (KeepsContext(w) ==> e.context == agent.messages + Messages(e.added) == ReduceAll(agent, e.trace).messages)
  }

  lemma EndsAgree(w: World, agent: AgentState, trace: seq<Event>, ends: seq<Transcript>, i: nat)
    requires EndsAt(ends, trace) && (KeepsContext(w) ==> AllRooted(agent.messages, ends)) && i < |ends|
    requires agent.streaming.None? && agent.pendingToolCalls == {}
    ensures AgreeAt(w, agent, trace, ends, i)
  {
    EndReduces(ends[i], agent);
    if KeepsContext(w) {
      assert Rooted(agent.messages, ends[i]);
      assert ends[i].added[0..] == ends[i].added;
    }
  }

  /**
   * At every turn_end: the context is its root followed by the messages added since, the message_end events so far
   * list newMessages, and the Agent's transcript equals the context if and only if the context prepareNextTurn last
   * handed back was that transcript. Where it never hands one back, context, starting messages with newMessages, and
   * transcript are one. No tool call is pending and nothing is streaming.
   */
  lemma TranscriptsAgree(w: World, max: nat, prompts: seq<Item>, q: Queues, agent: AgentState, i: nat)
    requires agent.streaming.None? && agent.pendingToolCalls == {}
    ensures var r := RunLoop(w, max, agent.messages, prompts, q);
            AllTame(w, r.calls) && i < |r.ends| ==> AgreeAt(w, agent, Heard(w, r), r.ends, i)
  {
    var base := agent.messages;
    var r := RunLoop(w, max, base, prompts, q);
    if AllTame(w, r.calls) && i < |r.ends| {
      RunIsSound(w, max, base, prompts, q);
      LateCallsAreDropped(w, max, base, prompts, q);
      StartHolds(w, max, base, prompts, q);
      PlayLoose(base, w, max, Launch(w, base, prompts, q));
      EndsAgree(w, agent, r.t.trace, r.ends, i);
    }
  }

  lemma EndReduces(e: Transcript, agent: AgentState)
    requires At(e, Between) && agent.streaming.None? && agent.pendingToolCalls == {}
    ensures Agree(agent, e)
  {
    ReducerTranscript(agent, e.trace);
    ReducerReflects(agent, Fresh, e.trace);
    assert ReduceAll(agent, e.trace).pendingToolCalls == {};
    var before, since := e.added[..e.from], e.added[e.from..];
    assert e.added == before + since;
    MessagesAppend(before, since);
    Assoc(agent.messages, Messages(before), Messages(since));
    CancelRight(agent.messages + Messages(before), e.root, Messages(since));
  }

  lemma CancelRight(a: seq<Message>, b: seq<Message>, c: seq<Message>)
    ensures a + c == b + c <==> a == b
  {
    if a + c == b + c {
      assert |a| == |b| && (a + c)[..|a|] == a && (b + c)[..|b|] == b;
    }
  }

  lemma RunIsSound(w: World, max: nat, base: seq<Message>, prompts: seq<Item>, q: Queues)
    requires AllTame(w, RunLoop(w, max, base, prompts, q).calls)
    ensures RunAt(RunLoop(w, max, base, prompts, q), Ended)
  {
    var s := Launch(w, base, prompts, q);
    StartHolds(w, max, base, prompts, q);
    PlayLoose(base, w, max, s);
    PlayKeeps(base, w, max, s);
  }

  lemma {:induction false} StaleNone(w: World, n: nat)
    ensures Stale(w, n) == 0 <==> AllTame(w, n)
  {
    if n > 0 {
      StaleNone(w, n - 1);
      assert Tame(w.respond(n - 1)) <==> Excess(w.respond(n - 1)) == 0;
    }
  }

  /**
   * With a context that is never replaced, the Agent and the loop agree at the end of a run exactly when every stream
   * of it started at most once.
   */
  lemma AgreementIff(w: World, max: nat, prompts: seq<Item>, q: Queues, agent: AgentState)
    requires KeepsContext(w)
    ensures var r := RunLoop(w, max, agent.messages, prompts, q);
            ReduceAll(agent, Heard(w, r)).messages == r.t.context <==> AllTame(w, r.calls)
  {
    var base := agent.messages;
    var r := RunLoop(w, max, base, prompts, q);
    AgentKeepsMessages(w, max, prompts, q, agent);
    StartHolds(w, max, base, prompts, q);
    PlayLoose(base, w, max, Launch(w, base, prompts, q));
    StaleNone(w, r.calls);
    if AllTame(w, r.calls) {
      RunIsSound(w, max, base, prompts, q);
      assert r.t.added[0..] == r.t.added;
    }
  }
}
