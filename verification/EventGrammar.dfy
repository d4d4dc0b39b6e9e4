/** The grammar of event traces, as an automaton, and what it means for the Agent's state. */
module EventGrammar {
  import opened Basics
  import opened AgentEvents

  /**
   * Where a trace may stand. Within a turn, `message` says that a message bracket is open and `calls` counts, per call
   * id, the tool executions that have started and not ended.
   */
  datatype Phase =
    | Fresh
    | Opened
    | InTurn(message: bool, calls: multiset<Id>)
    | Between
    | FollowingUp
    | Ended

  const QUIET := InTurn(false, multiset{})

  /**
   * One agent_start; turns of one turn_start and one turn_end; follow_up_start only between turns and followed by a
   * turn; agent_end after a turn, and last. Message brackets do not nest and do not overlap tool executions; updates
   * and ends belong to started calls.
   */
  function Accept(p: Phase, e: Event): Option<Phase> {
    match e
    case AgentStart => if p == Fresh then Some(Opened) else None
    case TurnStart => if p == Opened || p == Between || p == FollowingUp then Some(QUIET) else None
    case MessageStart(_) => if p == QUIET then Some(p.(message := true)) else None
    case MessageUpdate(_) => if p.InTurn? && p.message then Some(p) else None
    case MessageEnd(_) => if p.InTurn? && p.message then Some(p.(message := false)) else None
    case ToolStart(c) => if p.InTurn? && !p.message then Some(p.(calls := p.calls + multiset{c.id})) else None
    case ToolUpdate(c, _) => if p.InTurn? && c.id in p.calls then Some(p) else None
    case ToolEnd(c, _) => if p.InTurn? && c.id in p.calls then Some(p.(calls := p.calls - multiset{c.id})) else None
    case TurnEnd(_, _) => if p == QUIET then Some(Between) else None
    case FollowUpStart => if p == Between then Some(FollowingUp) else None
    case AgentEnd(_) => if p == Between then Some(Ended) else None
  }

  function Parse(p: Phase, events: seq<Event>): Option<Phase>
    decreases |events|
  {
    if events == [] then Some(p)
    else
      var q := Accept(p, events[0]);
      if q.None? then None else Parse(q.value, events[1..])
  }

  lemma {:induction false} ParseAppend(p: Phase, a: seq<Event>, b: seq<Event>)
    ensures Parse(p, a + b) == (if Parse(p, a).None? then None else Parse(Parse(p, a).value, b))
    decreases |a|
  {
    if a == [] {
      assert a + b == b;
    } else {
      assert (a + b)[1..] == a[1..] + b;
      if Accept(p, a[0]).Some? { ParseAppend(Accept(p, a[0]).value, a[1..], b); }
    }
  }

  lemma ParseChain(p: Phase, a: seq<Event>, q: Phase, b: seq<Event>, r: Phase)
    requires Parse(p, a) == Some(q) && Parse(q, b) == Some(r)
    ensures Parse(p, a + b) == Some(r)
  {
    ParseAppend(p, a, b);
  }

  lemma ParseOne(p: Phase, e: Event)
    ensures Parse(p, [e]) == Accept(p, e)
  {
    assert [e][1..] == [];
  }

  lemma {:induction false} PairsParse(ms: seq<Message>)
    ensures Parse(QUIET, Pairs(ms)) == Some(QUIET)
  {
    if ms != [] {
      PairsParse(ms[..|ms| - 1]);
      PairParses(ms[|ms| - 1]);
      ParseAppend(QUIET, Pairs(ms[..|ms| - 1]), Pair(ms[|ms| - 1]));
    }
  }

  lemma PairParses(m: Message)
    ensures Parse(QUIET, Pair(m)) == Some(QUIET)
  {
    assert Pair(m)[1..] == [MessageEnd(m)];
    ParseOne(InTurn(true, multiset{}), MessageEnd(m));
  }

  // --- what acceptance means for the reducer ---

  /** The Agent shows a streaming message exactly within a message bracket, and no call as pending that has ended. */
  ghost predicate Reflects(s: AgentState, p: Phase) {
    && (s.streaming.Some? <==> p.InTurn? && p.message)
    && (forall id :: id in s.pendingToolCalls ==> p.InTurn? && id in p.calls)
  }

  lemma StepReflects(s: AgentState, p: Phase, e: Event)
    requires Reflects(s, p) && Accept(p, e).Some?
    ensures Reflects(Reduce(s, e), Accept(p, e).value)
  {}

  lemma {:induction false} ReducerReflects(s: AgentState, p: Phase, events: seq<Event>)
    requires Reflects(s, p) && Parse(p, events).Some?
    ensures Reflects(ReduceAll(s, events), Parse(p, events).value)
    decreases |events|
  {
    if events != [] {
      StepReflects(s, p, events[0]);
      ReducerReflects(Reduce(s, events[0]), Accept(p, events[0]).value, events[1..]);
    }
  }

  // --- what the Agent shows ---

  /** No call starts under an id that is still open. */
  ghost predicate DistinctCalls(p: Phase, events: seq<Event>)
    decreases |events|
  {
    events == [] ||
    (&& Accept(p, events[0]).Some? && (events[0].ToolStart? && p.InTurn? ==> events[0].call.id !in p.calls)
     && DistinctCalls(Accept(p, events[0]).value, events[1..]))
  }

  function OpenCalls(p: Phase): set<Id> { if p.InTurn? then set id | id in p.calls else {} }

  ghost predicate Tracks(s: AgentState, p: Phase) {
    s.pendingToolCalls == OpenCalls(p) && (p.InTurn? ==> forall id :: id in p.calls ==> p.calls[id] == 1)
  }

  lemma StepTracks(s: AgentState, p: Phase, e: Event)
    requires Tracks(s, p) && Accept(p, e).Some? && (e.ToolStart? && p.InTurn? ==> e.call.id !in p.calls)
    ensures Tracks(Reduce(s, e), Accept(p, e).value)
  {
    var q := Accept(p, e).value;
    if e.ToolStart? || e.ToolEnd? {
      forall id ensures id in Reduce(s, e).pendingToolCalls <==> id in OpenCalls(q) {
        assert id in q.calls <==> q.calls[id] > 0;
      }
    } else if p.InTurn? && !q.InTurn? {
      assert OpenCalls(p) == {};
    }
  }

  /** On accepted traces with distinct open call ids the Agent's pending calls are exactly the open ones. */
  lemma {:induction false} PendingAreOpen(s: AgentState, p: Phase, events: seq<Event>)
    requires Tracks(s, p) && DistinctCalls(p, events)
    ensures Parse(p, events).Some? && ReduceAll(s, events).pendingToolCalls == OpenCalls(Parse(p, events).value)
    decreases |events|
  {
    if events != [] {
      StepTracks(s, p, events[0]);
      PendingAreOpen(Reduce(s, events[0]), Accept(p, events[0]).value, events[1..]);
    }
  }

  /** The message an event shows as streaming, if it changes that at all. */
  function Shown(e: Event): Option<Option<Message>> {
    match e
    case MessageStart(m) => Some(Some(m))
    case MessageUpdate(m) => Some(Some(m))
    case MessageEnd(_) => Some(None)
    case AgentEnd(_) => Some(None)
    case _ => None
  }

  /** The error an event reports: that of a reply that ends a turn with one. */
  function Reported(e: Event): Option<string> {
    if e.TurnEnd? && e.message.Reply? && e.message.assistant.errorMessage != ""
    then Some(e.message.assistant.errorMessage) else None
  }

  lemma {:induction false} ReduceLast(s: AgentState, events: seq<Event>, e: Event)
    ensures ReduceAll(s, events + [e]) == Reduce(ReduceAll(s, events), e)
    decreases |events|
  {
    if events == [] {
      assert events + [e] == [e] && [e][1..] == [];
    } else {
      assert (events + [e])[1..] == events[1..] + [e];
      ReduceLast(Reduce(s, events[0]), events[1..], e);
    }
  }

  /** The Agent shows the last message started or updated and not ended, and the last error a turn ended with. */
  lemma {:induction false} ShowsTheLatest(s: AgentState, events: seq<Event>, e: Event)
    ensures var before, after := ReduceAll(s, events), ReduceAll(s, events + [e]);
            && after.streaming == (if Shown(e).Some? then Shown(e).value else before.streaming)
            && after.errorMessage == (if Reported(e).Some? then Reported(e) else before.errorMessage)
  {
    ReduceLast(s, events, e);
  }
}
