/** What every step of the loop keeps while its streams start at most once. */
module LoopSafety {
  import opened Basics
  import opened AgentEvents
  import opened EventGrammar
  import opened AssistantStream
  import opened LoopMachine
  import opened TurnTraces

  lemma MessagesAppend(a: seq<Item>, b: seq<Item>)
    ensures Messages(a + b) == Messages(a) + Messages(b)
  {}

  /** The closed messages are exactly the added ones. */
  ghost predicate Told(t: Transcript) { MessageEnds(t.trace) == Messages(t.added) }

  /** The context is its root followed by what was added since. */
  ghost predicate Grown(t: Transcript) {
    t.from <= |t.added| && t.context == t.root + Messages(t.added[t.from..])
  }

  /** The loop's three records agree and the trace stands at `p` in the grammar. */
  ghost predicate At(t: Transcript, p: Phase) { Told(t) && Grown(t) && Parse(Fresh, t.trace) == Some(p) }

  lemma EmitTold(t: Transcript, events: seq<Event>)
    requires Told(t) && MessageEnds(events) == []
    ensures Told(Emit(t, events))
  {
    MessageEndsAppend(t.trace, events);
  }

  lemma EmitAt(t: Transcript, p: Phase, events: seq<Event>, q: Phase)
    requires At(t, p) && MessageEnds(events) == [] && Parse(p, events) == Some(q)
    ensures At(Emit(t, events), q)
  {
    EmitTold(t, events);
    ParseChain(Fresh, t.trace, p, events, q);
  }

  lemma EmitOneAt(t: Transcript, p: Phase, e: Event, q: Phase)
    requires At(t, p) && !e.MessageEnd? && Accept(p, e) == Some(q)
    ensures At(Emit(t, [e]), q)
  {
    ParseOne(p, e);
    assert [e][1..] == [];
    EmitAt(t, p, [e], q);
  }

  /** Messages entering the transcript together with events that close exactly them. */
  lemma AddTold(t: Transcript, items: seq<Item>, events: seq<Event>)
    requires Told(t) && MessageEnds(events) == Messages(items)
    ensures Told(Emit(Add(t, items), events))
  {
    MessagesAppend(t.added, items);
    MessageEndsAppend(t.trace, events);
  }

  lemma AddGrown(t: Transcript, items: seq<Item>)
    requires Grown(t)
    ensures Grown(Add(t, items))
  {
    assert (t.added + items)[t.from..] == t.added[t.from..] + items;
    MessagesAppend(t.added[t.from..], items);
    Assoc(t.root, Messages(t.added[t.from..]), Messages(items));
  }

  lemma PrepareAt(t: Transcript, context: Option<seq<Message>>, p: Phase)
    requires At(t, p)
    ensures At(Prepare(t, context), p)
  {
    assert t.added[|t.added|..] == [] && Messages([]) == [];
  }

  lemma AddAt(t: Transcript, items: seq<Item>, events: seq<Event>)
    requires At(t, QUIET) && MessageEnds(events) == Messages(items) && Parse(QUIET, events) == Some(QUIET)
    ensures At(Emit(Add(t, items), events), QUIET)
  {
    AddTold(t, items, events);
    AddGrown(t, items);
    ParseChain(Fresh, t.trace, QUIET, events, QUIET);
  }

  lemma InjectAt(t: Transcript, items: seq<Item>)
    requires At(t, QUIET)
    ensures At(Inject(t, items), QUIET)
  {
    PairsParse(Messages(items));
    PairsEnd(Messages(items));
    AddAt(t, items, Pairs(Messages(items)));
  }

  lemma ReceiveAt(t: Transcript, r: Response)
    requires At(t, QUIET) && Tame(r)
    ensures At(Receive(t, r), QUIET)
  {
    var item := [Item(Loop, Reply(r.final))];
    var s := Stream(t.context, r.stream, r.final, false);
    TameIff(t.context, r);
    StreamEnds(t.context, r.stream, r.final, false);
    assert Messages(item) == [Reply(r.final)];
    AddAt(t, item, s.trace);
    assert Receive(t, r) == Emit(Add(t, item), s.trace);
  }

  lemma ToolsAt(t: Transcript, w: World, n: nat, a: Assistant)
    requires At(t, QUIET)
    ensures var b := BatchOf(w, n, a); At(Add(Emit(t, b.piece.trace), Tag(Loop, b.messages)), QUIET)
  {
    var b := BatchOf(w, n, a);
    BatchSound(w, n, a);
    AddAt(t, Tag(Loop, b.messages), b.piece.trace);
  }

  // --- the recorded turn ends ---

  /** The i-th record was taken right after the i-th turn_end. */
  ghost predicate EndsAt(ends: seq<Transcript>, trace: seq<Event>) {
    && Closed(trace) == |ends|
    && forall i :: 0 <= i < |ends| ==>
         && At(ends[i], Between) && ends[i].trace <= trace && Closed(ends[i].trace) == i + 1
         && ends[i].trace != [] && ends[i].trace[|ends[i].trace| - 1].TurnEnd?
  }

  lemma PrefixGrows(a: seq<Event>, b: seq<Event>, c: seq<Event>)
    requires a <= b
    ensures a <= b + c
  {}

  lemma EndsGrow(ends: seq<Transcript>, trace: seq<Event>, more: seq<Event>)
    requires EndsAt(ends, trace) && Closed(trace + more) == Closed(trace)
    ensures EndsAt(ends, trace + more)
  {
    forall i | 0 <= i < |ends| ensures ends[i].trace <= trace + more { PrefixGrows(ends[i].trace, trace, more); }
  }

  lemma EndsPush(ends: seq<Transcript>, trace: seq<Event>, t: Transcript)
    requires EndsAt(ends, trace) && At(t, Between) && |t.trace| == |trace| + 1 && trace <= t.trace
    requires t.trace[|trace|].TurnEnd?
    ensures EndsAt(ends + [t], t.trace)
  {
    assert t.trace == trace + [t.trace[|trace|]];
    OneCounts(trace, t.trace[|trace|]);
    var all := ends + [t];
    forall i | 0 <= i < |all|
      ensures && At(all[i], Between) && all[i].trace <= t.trace && Closed(all[i].trace) == i + 1
              && all[i].trace != [] && all[i].trace[|all[i].trace| - 1].TurnEnd?
    {
      if i < |ends| { PrefixGrows(ends[i].trace, trace, [t.trace[|trace|]]); }
    }
  }

  // --- the run ---

  /** Turns begun so far, counting the one that runAgentLoop opens. */
  ghost predicate Counted(s: Run) {
    Begun(s.t.trace) == if s.first then s.turns + 1 else s.turns
  }

  ghost predicate RunAt(s: Run, p: Phase) {
    At(s.t, p) && EndsAt(s.ends, s.t.trace) && Counted(s)
  }

  /** Between rounds. */
  ghost predicate Waiting(s: Run) {
    if s.done then RunAt(s, Ended)
    else if s.first then RunAt(s, QUIET)
    else RunAt(s, Between) || RunAt(s, FollowingUp)
  }

  lemma InnerAt(s: Run, t: Transcript, more: seq<Event>)
    requires RunAt(s, QUIET) && At(t, QUIET) && t.trace == s.t.trace + more && Inner(more)
    ensures RunAt(s.(t := t), QUIET)
  {
    InnerCounts(s.t.trace, more);
    EndsGrow(s.ends, s.t.trace, more);
  }

  lemma BeginKeeps(s: Run)
    requires Waiting(s) && !s.done
    ensures RunAt(Begin(s), QUIET)
  {
    var t := if s.first then s.t else Emit(s.t, [TurnStart]);
    if !s.first {
      var p := if RunAt(s, Between) then Between else FollowingUp;
      EmitOneAt(s.t, p, TurnStart, QUIET);
      OneCounts(s.t.trace, TurnStart);
      EndsGrow(s.ends, s.t.trace, [TurnStart]);
    }
    var begun := s.(t := t, first := false, turns := s.turns + 1);
    assert RunAt(begun, QUIET);
    InjectAt(t, s.pending);
    PairsInner(Messages(s.pending));
    InnerAt(begun, Inject(t, s.pending), Pairs(Messages(s.pending)));
  }

  lemma EndTurnKeeps(s: Run, a: Assistant, results: seq<Message>)
    requires RunAt(s, QUIET)
    ensures RunAt(EndTurn(s, a, results), Between)
  {
    var e := TurnEnd(Reply(a), results);
    EmitOneAt(s.t, QUIET, e, Between);
    OneCounts(s.t.trace, e);
    EndsPush(s.ends, s.t.trace, Close(s.t, a, results));
  }

  lemma EndRunKeeps(s: Run)
    requires RunAt(s, Between)
    ensures RunAt(EndRun(s), Ended)
  {
    var e := AgentEnd(Messages(s.t.added));
    EmitOneAt(s.t, Between, e, Ended);
    OneCounts(s.t.trace, e);
    EndsGrow(s.ends, s.t.trace, [e]);
  }

  lemma ExhaustKeeps(w: World, s: Run)
    requires RunAt(s, QUIET)
    ensures RunAt(Exhaust(w, s), Ended)
  {
    var item := [Item(Loop, Reply(w.exhausted))];
    InjectAt(s.t, item);
    PairsInner(Messages(item));
    InnerAt(s, Inject(s.t, item), Pairs(Messages(item)));
    EndTurnKeeps(s.(t := Inject(s.t, item)), w.exhausted, []);
    EndRunKeeps(EndTurn(s.(t := Inject(s.t, item)), w.exhausted, []));
  }

  lemma ReceiveKeeps(w: World, s: Run)
    requires RunAt(s, QUIET) && Tame(w.respond(s.calls))
    ensures RunAt(Replied(w, s), QUIET)
  {
    var r := w.respond(s.calls);
    ReceiveAt(s.t, r);
    StreamInner(s.t.context, r.stream, r.final, false);
    InnerAt(s, Receive(s.t, r), Stream(s.t.context, r.stream, r.final, false).trace);
  }

  lemma ToolsKeep(s: Run, w: World, n: nat, a: Assistant)
    requires RunAt(s, QUIET)
    ensures RunAt(RunTools(s, BatchOf(w, n, a)), QUIET)
  {
    var b := BatchOf(w, n, a);
    ToolsAt(s.t, w, n, a);
    BatchSound(w, n, a);
    InnerAt(s, Add(Emit(s.t, b.piece.trace), Tag(Loop, b.messages)), b.piece.trace);
  }

  lemma PrepareKeeps(w: World, n: nat, s: Run, p: Phase)
    requires RunAt(s, p)
    ensures RunAt(PrepareNext(w, n, s), p)
  {
    PrepareAt(s.t, w.handsBack(n), p);
  }

  lemma ReactKeeps(w: World, n: nat, s: Run, a: Assistant)
    requires RunAt(s, QUIET) && !s.done && !s.first
    ensures var r := React(w, n, s, a).0; !r.first && RunAt(r, if r.done then Ended else Between)
  {
    if Failed(a) {
      EndTurnKeeps(s, a, []);
      EndRunKeeps(EndTurn(s, a, []));
    } else {
      var batch := BatchOf(w, n, a);
      ToolsKeep(s, w, n, a);
      EndTurnKeeps(RunTools(s, batch), a, batch.messages);
      var ended := EndTurn(RunTools(s, batch), a, batch.messages);
      PrepareKeeps(w, n, ended, Between);
      if w.stops(n) { EndRunKeeps(PrepareNext(w, n, ended)); }
    }
  }

  lemma AnswerKeeps(w: World, s: Run)
    requires RunAt(s, QUIET) && !s.done && !s.first && Tame(w.respond(s.calls))
    ensures var r := Answer(w, s).0; !r.first && RunAt(r, if r.done then Ended else Between)
  {
    ReceiveKeeps(w, s);
    ReactKeeps(w, s.calls, Replied(w, s), w.respond(s.calls).final);
  }

  lemma TurnKeeps(w: World, max: nat, s: Run)
    requires Waiting(s) && !s.done && (s.calls < max ==> Tame(w.respond(s.calls)))
    ensures var r := Turn(w, max, s).0; !r.first && RunAt(r, if r.done then Ended else Between)
  {
    BeginKeeps(s);
    if s.calls >= max { ExhaustKeeps(w, Begin(s)); } else { AnswerKeeps(w, Begin(s)); }
  }

  lemma WouldStopKeeps(w: World, s: Run)
    requires RunAt(s, Between) && !s.done && !s.first
    ensures Waiting(WouldStop(w, s))
  {
    var (ms, q) := PollFollowUps(w, s.queues);
    if ms == [] {
      EndRunKeeps(s.(queues := q));
    } else {
      EmitOneAt(s.t, Between, FollowUpStart, FollowingUp);
      OneCounts(s.t.trace, FollowUpStart);
      EndsGrow(s.ends, s.t.trace, [FollowUpStart]);
    }
  }

  lemma RoundKeeps(w: World, max: nat, s: Run)
    requires Waiting(s) && !s.done && (s.calls < max ==> Tame(w.respond(s.calls)))
    ensures Waiting(Round(w, max, s))
  {
    TurnKeeps(w, max, s);
    var (r, more) := Turn(w, max, s);
    if !(r.done || more || r.pending != []) { WouldStopKeeps(w, r); }
  }
}
