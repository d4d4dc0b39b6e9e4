/** The event grammar over whole runs: obeyed exactly when every stream starts at most once. */
module LoopGrammar {
  import opened Basics
  import opened AgentEvents
  import opened EventGrammar
  import opened AssistantStream
  import opened LoopMachine
  import opened LoopSafety
  import opened LoopRuns

  /** No continuation of the trace can be a sentence any more. */
  ghost predicate Broken(s: Run) { Parse(Fresh, s.t.trace).None? }

  lemma StaysBroken(s: Run, r: Run, more: seq<Event>)
    requires Broken(s) && r.t.trace == s.t.trace + more
    ensures Broken(r)
  {
    ParseAppend(Fresh, s.t.trace, more);
  }

  lemma EndTurnBroken(s: Run, a: Assistant, results: seq<Message>)
    requires Broken(s)
    ensures Broken(EndTurn(s, a, results))
  {
    StaysBroken(s, EndTurn(s, a, results), [TurnEnd(Reply(a), results)]);
  }

  lemma EndRunBroken(s: Run)
    requires Broken(s)
    ensures Broken(EndRun(s))
  {
    StaysBroken(s, EndRun(s), [AgentEnd(Messages(s.t.added))]);
  }

  lemma BeginBroken(s: Run)
    requires Broken(s)
    ensures Broken(Begin(s))
  {
    var open := if s.first then [] else [TurnStart];
    Assoc(s.t.trace, open, Pairs(Messages(s.pending)));
    assert s.t.trace + [] == s.t.trace;
    StaysBroken(s, Begin(s), open + Pairs(Messages(s.pending)));
  }

  lemma ReactBroken(w: World, n: nat, s: Run, a: Assistant)
    requires Broken(s)
    ensures Broken(React(w, n, s, a).0)
  {
    if Failed(a) {
      EndTurnBroken(s, a, []);
      EndRunBroken(EndTurn(s, a, []));
    } else {
      var batch := BatchOf(w, n, a);
      StaysBroken(s, RunTools(s, batch), batch.piece.trace);
      EndTurnBroken(RunTools(s, batch), a, batch.messages);
      EndRunBroken(PrepareNext(w, n, EndTurn(RunTools(s, batch), a, batch.messages)));
    }
  }

  lemma ExhaustBroken(w: World, s: Run)
    requires Broken(s)
    ensures Broken(Exhaust(w, s))
  {
    var item := [Item(Loop, Reply(w.exhausted))];
    var told := s.(t := Inject(s.t, item));
    StaysBroken(s, told, Pairs(Messages(item)));
    EndTurnBroken(told, w.exhausted, []);
    EndRunBroken(EndTurn(told, w.exhausted, []));
  }

  lemma TurnBroken(w: World, max: nat, s: Run)
    requires Broken(s)
    ensures Broken(Turn(w, max, s).0)
  {
    var b := Begin(s);
    BeginBroken(s);
    if b.calls >= max {
      ExhaustBroken(w, b);
    } else {
      var r := w.respond(b.calls);
      StaysBroken(b, Replied(w, b), Stream(b.t.context, r.stream, r.final, false).trace);
      ReactBroken(w, b.calls, Replied(w, b), r.final);
    }
  }

  lemma WouldStopBroken(w: World, s: Run)
    requires Broken(s)
    ensures Broken(WouldStop(w, s))
  {
    var more := if PollFollowUps(w, s.queues).0 == [] then [AgentEnd(Messages(s.t.added))] else [FollowUpStart];
    StaysBroken(s, WouldStop(w, s), more);
  }

  lemma {:induction false} PlayBroken(w: World, max: nat, s: Run)
    requires Broken(s) && Within(max, s)
    ensures Broken(Play(w, max, s))
    decreases Measure(max, s)
  {
    if !s.done {
      TurnBroken(w, max, s);
      WouldStopBroken(w, Turn(w, max, s).0);
      RoundWithin(w, max, s);
      PlayBroken(w, max, Round(w, max, s));
    }
  }

  /** A stream that starts again breaks the trace within its turn. */
  lemma WildTurnBreaks(w: World, max: nat, s: Run)
    requires Waiting(s) && !s.done && s.calls < max && !Tame(w.respond(s.calls))
    ensures Broken(Turn(w, max, s).0)
  {
    var b := Begin(s);
    BeginKeeps(s);
    var r := w.respond(b.calls);
    var trace := Stream(b.t.context, r.stream, r.final, false).trace;
    ClosedStream(b.t.context, r.stream, r.final);
    ParseAppend(Fresh, b.t.trace, trace);
    ReactBroken(w, b.calls, Replied(w, b), r.final);
  }

  lemma {:induction false} WildRunBreaks(base: seq<Message>, w: World, max: nat, s: Run)
    requires Waiting(s) && Loose(base, w, s) && Within(max, s) && AllTame(w, s.calls)
    requires !AllTame(w, Play(w, max, s).calls)
    ensures Broken(Play(w, max, s))
    decreases Measure(max, s)
  {
    var r := Round(w, max, s);
    RoundWithin(w, max, s);
    RoundLoose(base, w, max, s);
    if s.calls < max && !Tame(w.respond(s.calls)) {
      WildTurnBreaks(w, max, s);
      WouldStopBroken(w, Turn(w, max, s).0);
      PlayBroken(w, max, r);
    } else {
      RoundKeeps(w, max, s);
      RoundCalls(w, max, s);
      TameSoFar(w, s.calls, r.calls);
      WildRunBreaks(base, w, max, r);
    }
  }

  lemma TameSoFar(w: World, n: nat, k: nat)
    requires AllTame(w, n) && (k == n || (k == n + 1 && Tame(w.respond(n))))
    ensures AllTame(w, k)
  {}

  lemma RoundCalls(w: World, max: nat, s: Run)
    ensures Round(w, max, s).calls == if s.calls < max then s.calls + 1 else s.calls
  {}

  /**
   * What the Agent hears of a run, for tools that settle and call onUpdate whenever they like, is a sentence of the
   * grammar if and only if each stream of the run started at most once.
   */
  lemma TracesObeyGrammar(w: World, max: nat, context: seq<Message>, prompts: seq<Item>, q: Queues)
    ensures var r := RunLoop(w, max, context, prompts, q);
            AllTame(w, r.calls) <==> Parse(Fresh, Heard(w, r)) == Some(Ended)
  {
    LateCallsAreDropped(w, max, context, prompts, q);
    StartHolds(w, max, context, prompts, q);
    if AllTame(w, RunLoop(w, max, context, prompts, q).calls) {
      RunIsSound(w, max, context, prompts, q);
    } else {
      WildRunBreaks(context, w, max, Launch(w, context, prompts, q));
    }
  }
}
