/** An Agent over its life: prompts, continuations and messages queued before, between and during runs. */
module AgentSessions {
  import opened Basics
  import opened AgentEvents
  import opened LoopMachine
  import opened EventGrammar
  import opened LateUpdates
  import opened LoopSafety
  import opened LoopRuns
  import opened QueueConservation
  import P = LoopProgress

  /** `log` is the ledger of all messages that entered the transcript, with their sources. */
  datatype Session = Session(agent: AgentState, queues: Queues, log: seq<Item>)

  datatype Act =
    | Steers(m: Message)
    | FollowsUp(m: Message)
    | Prompts(ms: seq<Message>, w: World, max: nat)
    | Continues(w: World, max: nat, steerAll: bool, followAll: bool)

  /** runWithLifecycle around one run of the loop. */
  function RunWith(s: Session, prompts: seq<Item>, q: Queues, w: World, max: nat): Session {
    var a := s.agent.(streaming := None, errorMessage := None);
    var r := Attempt(w, max, a.messages, prompts, q);
    Session(ReduceAll(a, Heard(w, r)).(streaming := None, pendingToolCalls := {}), r.queues, s.log + r.t.added)
  }

  function Fresh(q: Queues, skip: bool): Queues { q.(polls := 0, skip := skip) }

  predicate EndsWithReply(ms: seq<Message>) { ms != [] && ms[|ms| - 1].Reply? }

  /** After a reply the queues supply the prompts, steering first; the flag is success. */
  function FromQueues(s: Session, w: World, max: nat, steerAll: bool, followAll: bool): (Session, bool) {
    var q := s.queues;
    if q.steering != [] then
      (RunWith(s, Tag(Steering, Drained(steerAll, q.steering)),
               Fresh(q, true).(steering := Rest(steerAll, q.steering)), w, max), true)
    else if q.followUps != [] then
      (RunWith(s, Tag(FollowUp, Drained(followAll, q.followUps)),
               Fresh(q, false).(followUps := Rest(followAll, q.followUps)), w, max), true)
    else (s, false)
  }

  /** continue(): with the queues after a reply, otherwise with the transcript as it stands. */
  function Continue(s: Session, w: World, max: nat, steerAll: bool, followAll: bool): (Session, bool) {
    if s.agent.messages == [] then (s, false)
    else if EndsWithReply(s.agent.messages) then FromQueues(s, w, max, steerAll, followAll)
    else (RunWith(s, [], Fresh(s.queues, false), w, max), true)
  }

  function Do(s: Session, act: Act): Session {
    match act
    case Steers(m) => s.(queues := s.queues.(steering := s.queues.steering + [m], steered := s.queues.steered + [m]))
    case FollowsUp(m) => s.(queues := s.queues.(followUps := s.queues.followUps + [m],
                                                followed := s.queues.followed + [m]))
    case Prompts(ms, w, max) => RunWith(s, Tag(Prompt, ms), Fresh(s.queues, false), w, max)
    case Continues(w, max, steerAll, followAll) => Continue(s, w, max, steerAll, followAll).0
  }

  function Live(s: Session, acts: seq<Act>): Session
    decreases |acts|
  {
    if acts == [] then s else Live(Do(s, acts[0]), acts[1..])
  }

  function Begin(base: seq<Message>): Session {
    Session(AgentState(base, None, {}, None), Queues([], [], [], [], 0, false), [])
  }

  /** Both queues balance and the Agent's transcript is the ledger. */
  ghost predicate Sound(base: seq<Message>, s: Session) {
    && Balanced(s.log, s.queues, Steering) && Balanced(s.log, s.queues, FollowUp)
    && s.agent.messages == base + Messages(s.log)
    && s.agent.streaming.None? && s.agent.pendingToolCalls == {}
  }

  /** The run that only opened and failed. */
  lemma FailureSound(w: World, prompts: seq<Item>, q: Queues, agent: AgentState)
    ensures var r := Attempt(w, 0, agent.messages, prompts, q);
            && r.t.added == prompts + [Item(Loop, Reply(w.failure))] && r.queues == q
            && ReduceAll(agent, Heard(w, r)).messages == agent.messages + Messages(r.t.added)
            && Parse(EventGrammar.Fresh, Heard(w, r)) == Some(Ended)
  {
    var o, r := Opening(agent.messages, prompts, q), Attempt(w, 0, agent.messages, prompts, q);
    var f := Reply(w.failure);
    OpeningHolds(w, agent.messages, prompts, q);
    FailureParses(w.failure);
    AddTold(o.t, [Item(Loop, f)], FailureEvents(w.failure));
    ParseChain(EventGrammar.Fresh, o.t.trace, QUIET, FailureEvents(w.failure), Ended);
    DeliveredUnchanged(r.t.trace, [], w.noise, 0);
    assert r.t.trace[0..] == r.t.trace;
    ReducerTranscript(agent, r.t.trace);
  }

  lemma FailureParses(f: Assistant)
    ensures Parse(QUIET, FailureEvents(f)) == Some(Ended) && MessageEnds(FailureEvents(f)) == [Reply(f)]
  {
    var e := FailureEvents(f);
    assert e[1..][1..] == e[2..] && e[2..][1..] == e[3..] && e[3..][1..] == [];
    assert MessageEnds(e[3..]) == [] && MessageEnds(e[2..]) == [] && MessageEnds(e[1..]) == [Reply(f)];
    assert Parse(Between, e[3..]) == Some(Ended) by { ParseOne(Between, e[3]); }
    assert Parse(QUIET, e[2..]) == Some(Ended);
  }

  /** A prompt that is run: the ledger and the transcript go on with it, waiting steering messages, and the reply. */
  lemma RunAnswers(base: seq<Message>, s: Session, prompts: seq<Item>, q: Queues, w: World, max: nat)
    requires s.agent.messages == base + Messages(s.log)
    ensures var r := RunWith(s, prompts, q, w, max);
            var reply := if max < 1 then w.failure else w.respond(0).final;
            var given := prompts + (if max < 1 then [] else P.FirstDue(w, P.Start(prompts, q)));
            && s.log + (given + [Item(Loop, Reply(reply))]) <= r.log
            && r.agent.messages == base + Messages(r.log)
  {
    RunTranscript(base, s, prompts, q, w, max);
    if max < 1 {
      FailureSound(w, prompts, q, s.agent.(streaming := None, errorMessage := None));
      assert prompts + [] == prompts;
    } else {
      P.FirstReply(w, max, s.agent.messages, prompts, q);
    }
  }

  /** The last error a turn of the trace ended with. */
  function LastError(trace: seq<Event>): Option<string> {
    if trace == [] then None
    else
      var last := trace[|trace| - 1];
      if EventGrammar.Reported(last).Some? then EventGrammar.Reported(last) else LastError(trace[..|trace| - 1])
  }

  lemma {:induction false} ErrorIsLast(a: AgentState, trace: seq<Event>)
    requires a.errorMessage.None?
    ensures ReduceAll(a, trace).errorMessage == LastError(trace)
  {
    if trace != [] {
      var n := |trace| - 1;
      ErrorIsLast(a, trace[..n]);
      assert trace == trace[..n] + [trace[n]];
      ShowsTheLatest(a, trace[..n], trace[n]);
    }
  }

  /** After a run the Agent shows the last error of that run, none of an earlier one, and nothing in progress. */
  lemma RunShows(s: Session, prompts: seq<Item>, q: Queues, w: World, max: nat)
    ensures var r := RunWith(s, prompts, q, w, max);
            && r.agent.errorMessage == LastError(Heard(w, Attempt(w, max, s.agent.messages, prompts, q)))
            && r.agent.streaming.None? && r.agent.pendingToolCalls == {}
  {
    ErrorIsLast(s.agent.(streaming := None, errorMessage := None),
                Heard(w, Attempt(w, max, s.agent.messages, prompts, q)));
  }

  lemma RunBalances(s: Session, prompts: seq<Item>, q: Queues, w: World, max: nat, source: Source)
    requires Balanced(s.log + prompts, q, source) && IsQueue(source)
    ensures var r := RunWith(s, prompts, q, w, max); Balanced(r.log, r.queues, source)
  {
    if max < 1 {
      var f := Reply(w.failure);
      LoopAdds(s.log + prompts, [f], q, source);
      assert Tag(Loop, [f]) == [Item(Loop, f)] && [] + prompts == prompts;
      Assoc(s.log, prompts, [Item(Loop, f)]);
    } else {
      NothingDrainedIsLost(w, max, s.agent.messages, s.log, prompts, q, source);
    }
  }

  lemma RunTranscript(base: seq<Message>, s: Session, prompts: seq<Item>, q: Queues, w: World, max: nat)
    requires s.agent.messages == base + Messages(s.log)
    ensures var r := RunWith(s, prompts, q, w, max); r.agent.messages == base + Messages(r.log)
  {
    var a := s.agent.(streaming := None, errorMessage := None);
    if max < 1 { FailureSound(w, prompts, q, a); } else { AgentKeepsMessages(w, max, prompts, q, a); }
    Extend(base, s.log, Attempt(w, max, a.messages, prompts, q).t.added);
  }

  lemma Extend(base: seq<Message>, log: seq<Item>, added: seq<Item>)
    ensures base + Messages(log) + Messages(added) == base + Messages(log + added)
  {
    Assoc(base, Messages(log), Messages(added));
    assert Messages(log + added) == Messages(log) + Messages(added);
  }

  lemma RunSound(base: seq<Message>, s: Session, prompts: seq<Item>, q: Queues, w: World, max: nat)
    requires s.agent.messages == base + Messages(s.log)
    requires Balanced(s.log + prompts, q, Steering) && Balanced(s.log + prompts, q, FollowUp)
    ensures Sound(base, RunWith(s, prompts, q, w, max))
  {
    RunBalances(s, prompts, q, w, max, Steering);
    RunBalances(s, prompts, q, w, max, FollowUp);
    RunTranscript(base, s, prompts, q, w, max);
  }

  /** Prompts of the user do not touch the queues. */
  lemma PromptBalances(items: seq<Item>, ms: seq<Message>, q: Queues, skip: bool, source: Source)
    requires Balanced(items, q, source) && IsQueue(source)
    ensures Balanced(items + Tag(Prompt, ms), Fresh(q, skip), source) && Balanced(items + [], Fresh(q, skip), source)
  {
    SelectAppend(items, Tag(Prompt, ms), source);
    SelectTag(Prompt, ms, source);
    assert Select(items, source) + [] == Select(items, source) && items + [] == items;
  }

  lemma ContinueSound(base: seq<Message>, s: Session, w: World, max: nat, steerAll: bool, followAll: bool)
    requires Sound(base, s)
    ensures Sound(base, Continue(s, w, max, steerAll, followAll).0)
  {
    var q := s.queues;
    if s.agent.messages != [] {
      if !EndsWithReply(s.agent.messages) {
        PromptBalances(s.log, [], q, false, Steering);
        PromptBalances(s.log, [], q, false, FollowUp);
        RunSound(base, s, [], Fresh(q, false), w, max);
      } else if q.steering != [] {
        var r := Fresh(q, true).(steering := Rest(steerAll, q.steering));
        DrainMoves(s.log, q, r, Steering, steerAll, Steering);
        DrainMoves(s.log, q, r, Steering, steerAll, FollowUp);
        RunSound(base, s, Tag(Steering, Drained(steerAll, q.steering)), r, w, max);
      } else if q.followUps != [] {
        var r := Fresh(q, false).(followUps := Rest(followAll, q.followUps));
        DrainMoves(s.log, q, r, FollowUp, followAll, Steering);
        DrainMoves(s.log, q, r, FollowUp, followAll, FollowUp);
        RunSound(base, s, Tag(FollowUp, Drained(followAll, q.followUps)), r, w, max);
      }
    }
  }

  /** The prompts continue() runs with: what a queue hands out in its mode, steering before follow-ups. */
  function Continuation(s: Session, steerAll: bool, followAll: bool): Option<seq<Item>> {
    var ms, q := s.agent.messages, s.queues;
    if ms == [] then None
    else if !ms[|ms| - 1].Reply? then Some([])
    else if q.steering != [] then Some(Tag(Steering, if steerAll then q.steering else [q.steering[0]]))
    else if q.followUps != [] then Some(Tag(FollowUp, if followAll then q.followUps else [q.followUps[0]]))
    else None
  }

  /** The queues without what those prompts took; only after steering the first steering poll is skipped. */
  function Remaining(s: Session, steerAll: bool, followAll: bool): Queues {
    var ms, q := s.agent.messages, s.queues;
    if ms == [] || !ms[|ms| - 1].Reply? then q.(polls := 0, skip := false)
    else if q.steering != [] then
      q.(steering := if steerAll then [] else q.steering[1..], polls := 0, skip := true)
    else if q.followUps != [] then
      q.(followUps := if followAll then [] else q.followUps[1..], polls := 0, skip := false)
    else q
  }

  /** continue() throws exactly when there is nothing to continue, and otherwise runs with the continuation. */
  lemma ContinueIff(s: Session, w: World, max: nat, steerAll: bool, followAll: bool)
    ensures var (r, ok) := Continue(s, w, max, steerAll, followAll);
            var prompts := Continuation(s, steerAll, followAll);
            && (ok <==> prompts.Some?) && (!ok ==> r == s)
            && (ok ==> r == RunWith(s, prompts.value, Remaining(s, steerAll, followAll), w, max))
  {
    var q := s.queues;
    if s.agent.messages != [] && !EndsWithReply(s.agent.messages) {
      assert Remaining(s, steerAll, followAll) == Fresh(q, false);
    } else if s.agent.messages != [] && q.steering != [] {
      DrainedIs(steerAll, q.steering);
      assert Remaining(s, steerAll, followAll) == Fresh(q, true).(steering := LoopMachine.Rest(steerAll, q.steering));
    } else if s.agent.messages != [] && q.followUps != [] {
      DrainedIs(followAll, q.followUps);
      assert Remaining(s, steerAll, followAll)
          == Fresh(q, false).(followUps := LoopMachine.Rest(followAll, q.followUps));
    }
  }

  lemma DrainedIs(all: bool, queue: seq<Message>)
    ensures queue != [] ==> Drained(all, queue) == (if all then queue else [queue[0]])
                            && LoopMachine.Rest(all, queue) == (if all then [] else queue[1..])
  {}

  /** prompt() puts its messages, the waiting steering messages and a reply into the ledger. */
  lemma PromptTakesEffect(base: seq<Message>, s: Session, ms: seq<Message>, w: World, max: nat)
    requires s.agent.messages == base + Messages(s.log)
    ensures var reply := if max < 1 then w.failure else w.respond(0).final;
            var waiting := if max < 1 then [] else P.FirstDue(w, P.Start(Tag(Prompt, ms), Fresh(s.queues, false)));
            s.log + (Tag(Prompt, ms) + waiting + [Item(Loop, Reply(reply))]) <= Do(s, Prompts(ms, w, max)).log
  {
    RunAnswers(base, s, Tag(Prompt, ms), Fresh(s.queues, false), w, max);
  }

  /** So does continue() with its continuation, where there is one. */
  lemma ContinueTakesEffect(base: seq<Message>, s: Session, w: World, max: nat, steerAll: bool, followAll: bool)
    requires s.agent.messages == base + Messages(s.log)
    ensures var prompts := Continuation(s, steerAll, followAll); var q := Remaining(s, steerAll, followAll);
            var reply := if max < 1 then w.failure else w.respond(0).final;
            prompts.Some? ==>
              var waiting := if max < 1 then [] else P.FirstDue(w, P.Start(prompts.value, q));
              s.log + (prompts.value + waiting + [Item(Loop, Reply(reply))])
              <= Do(s, Continues(w, max, steerAll, followAll)).log
  {
    ContinueIff(s, w, max, steerAll, followAll);
    var prompts := Continuation(s, steerAll, followAll);
    if prompts.Some? { RunAnswers(base, s, prompts.value, Remaining(s, steerAll, followAll), w, max); }
  }

  lemma QueuedBalances(s: Session, m: Message)
    requires Balanced(s.log, s.queues, Steering) && Balanced(s.log, s.queues, FollowUp)
    ensures Balanced(s.log, Do(s, Steers(m)).queues, Steering) && Balanced(s.log, Do(s, Steers(m)).queues, FollowUp)
    ensures Balanced(s.log, Do(s, FollowsUp(m)).queues, Steering)
        && Balanced(s.log, Do(s, FollowsUp(m)).queues, FollowUp)
  {
    Assoc(Select(s.log, Steering), s.queues.steering, [m]);
    Assoc(Select(s.log, FollowUp), s.queues.followUps, [m]);
  }

  lemma DoKeeps(base: seq<Message>, s: Session, act: Act)
    requires Sound(base, s)
    ensures Sound(base, Do(s, act))
  {
    match act
    case Steers(m) => QueuedBalances(s, m);
    case FollowsUp(m) => QueuedBalances(s, m);
    case Prompts(ms, w, max) =>
      PromptBalances(s.log, ms, s.queues, false, Steering);
      PromptBalances(s.log, ms, s.queues, false, FollowUp);
      RunSound(base, s, Tag(Prompt, ms), Fresh(s.queues, false), w, max);
    case Continues(w, max, steerAll, followAll) => ContinueSound(base, s, w, max, steerAll, followAll);
  }

  lemma {:induction false} LiveKeeps(base: seq<Message>, s: Session, acts: seq<Act>)
    requires Sound(base, s)
    ensures Sound(base, Live(s, acts))
    decreases |acts|
  {
    if acts != [] {
      DoKeeps(base, s, acts[0]);
      LiveKeeps(base, Do(s, acts[0]), acts[1..]);
    }
  }

  /**
   * Over any life of an Agent, in either drain mode: the messages queued for steering are those that entered the
   * transcript as steering, in order and once each, followed by those still queued; likewise for follow-ups; and the
   * transcript is what it started from followed by the ledger.
   */
  lemma QueuesAreConserved(base: seq<Message>, acts: seq<Act>)
    ensures var s := Live(Begin(base), acts);
            && s.queues.steered == Select(s.log, Steering) + s.queues.steering
            && s.queues.followed == Select(s.log, FollowUp) + s.queues.followUps
            && s.agent.messages == base + Messages(s.log)
  {
    LiveKeeps(base, Begin(base), acts);
  }
}
