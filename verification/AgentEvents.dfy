/** Messages, the events a run emits, and the Agent's reduction of these events to its state. */
module AgentEvents {
  import opened Basics

  /** A tool-call id; only compared, so a number stands for the text. */
  type Id = nat

  /** Names, arguments, text and details are opaque here too: a number stands for each content. */
  datatype Call = Call(id: Id, name: nat, args: nat)

  datatype StopReason = Stop | Length | ToolUse | Error | Aborted

  datatype Outcome = Outcome(content: nat, isError: bool, terminate: bool)

  datatype Assistant = Assistant(stopReason: StopReason, calls: seq<Call>, errorMessage: string, content: nat)

  /** User stands for every message that is neither an assistant's nor a tool result. */
  datatype Message =
    | User(content: nat)
    | Reply(assistant: Assistant)
    | ToolResult(call: Call, outcome: Outcome)

  datatype Event =
    | AgentStart
    | TurnStart
    | MessageStart(message: Message)
    | MessageUpdate(message: Message)
    | MessageEnd(message: Message)
    | ToolStart(call: Call)
    | ToolUpdate(call: Call, partial: nat)
    | ToolEnd(call: Call, outcome: Outcome)
    | TurnEnd(message: Message, results: seq<Message>)
    | FollowUpStart
    | AgentEnd(messages: seq<Message>)

  /** The part of the Agent's state that events change. */
  datatype AgentState = AgentState(
    messages: seq<Message>, streaming: Option<Message>, pendingToolCalls: set<Id>, errorMessage: Option<string>)

  /** processEvents without its listeners. */
  function Reduce(s: AgentState, e: Event): AgentState {
    match e
    case MessageStart(m) => s.(streaming := Some(m))
    case MessageUpdate(m) => s.(streaming := Some(m))
    case MessageEnd(m) => s.(streaming := None, messages := s.messages + [m])
    case ToolStart(c) => s.(pendingToolCalls := s.pendingToolCalls + {c.id})
    case ToolEnd(c, _) => s.(pendingToolCalls := s.pendingToolCalls - {c.id})
    case TurnEnd(m, _) =>
      if m.Reply? && m.assistant.errorMessage != "" then s.(errorMessage := Some(m.assistant.errorMessage)) else s
    case AgentEnd(_) => s.(streaming := None)
    case _ => s
  }

  function ReduceAll(s: AgentState, events: seq<Event>): AgentState
    decreases |events|
  {
    if events == [] then s else ReduceAll(Reduce(s, events[0]), events[1..])
  }

  /** The messages whose brackets were closed, in order. */
  function MessageEnds(events: seq<Event>): seq<Message> {
    if events == [] then [] else (if events[0].MessageEnd? then [events[0].message] else []) + MessageEnds(events[1..])
  }

  lemma {:induction false} MessageEndsAppend(a: seq<Event>, b: seq<Event>)
    ensures MessageEnds(a + b) == MessageEnds(a) + MessageEnds(b)
  {
    if a == [] {
      assert a + b == b;
    } else {
      assert (a + b)[1..] == a[1..] + b;
      MessageEndsAppend(a[1..], b);
      Assoc(if a[0].MessageEnd? then [a[0].message] else [], MessageEnds(a[1..]), MessageEnds(b));
    }
  }

  /** The reducer's transcript is what it started from followed by the closed messages. */
  lemma {:induction false} ReducerTranscript(s: AgentState, events: seq<Event>)
    ensures ReduceAll(s, events).messages == s.messages + MessageEnds(events)
    decreases |events|
  {
    if events != [] {
      ReducerTranscript(Reduce(s, events[0]), events[1..]);
      Assoc(s.messages, if events[0].MessageEnd? then [events[0].message] else [], MessageEnds(events[1..]));
    }
  }

  /** A whole message at once. */
  function Pair(m: Message): seq<Event> { [MessageStart(m), MessageEnd(m)] }

  function Pairs(ms: seq<Message>): seq<Event> {
    if ms == [] then [] else Pairs(ms[..|ms| - 1]) + Pair(ms[|ms| - 1])
  }

  lemma PairEnds(m: Message)
    ensures MessageEnds(Pair(m)) == [m]
  {
    assert Pair(m)[1..] == [MessageEnd(m)] && [MessageEnd(m)][1..] == [];
    assert MessageEnds([MessageEnd(m)]) == [m];
  }

  lemma {:induction false} PairsEnd(ms: seq<Message>)
    ensures MessageEnds(Pairs(ms)) == ms
  {
    if ms != [] {
      var last := ms[|ms| - 1];
      PairsEnd(ms[..|ms| - 1]);
      MessageEndsAppend(Pairs(ms[..|ms| - 1]), Pair(last));
      PairEnds(last);
    }
  }
}
