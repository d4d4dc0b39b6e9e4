/** A run whose context prepareNextTurn empties after the first turn, so that loop and Agent part. */
module LoopWitness {
  import opened Basics
  import opened AgentEvents
  import opened AssistantStream
  import opened ToolBatch
  import opened LoopMachine
  import opened LoopRuns

  const ANSWER := Assistant(Stop, [], "", 0)
  const SPENT := Assistant(Error, [], "exhausted", 1)
  const NO_TOOLS := Oracle(_ => Immediate(Outcome(0, false, false)), _ => false, _ => _ => Pick(0, false))
  const NO_QUEUES := Queues([], [], [], [], 0, false)

  /** Every reply is plain; after the first one a user steers, and the context handed back is empty. */
  const FORGETFUL := World(
    _ => Response([], ANSWER), false, _ => false, _ => NO_TOOLS, _ => [], _ => Some([]), _ => false,
    n => if n == 1 then [User(0)] else [], _ => [], _ => true, _ => true, SPENT, SPENT)

  lemma FirstTurn(base: seq<Message>)
    ensures var s := Launch(FORGETFUL, base, [], NO_QUEUES); var r := Round(FORGETFUL, 1, s);
            && s.pending == [] && !r.done && r.calls == 1 && !r.first && |r.ends| == 1
            && r.t.root == [] && r.t.from == |r.t.added| == 1
  {
    var s := Launch(FORGETFUL, base, [], NO_QUEUES);
    assert s.queues.polls == 1 && s.pending == [] && s.t.added == [];
    var b := Begin(s);
    assert b.t.added == [];
    var a := Replied(FORGETFUL, b);
    assert |a.t.added| == 1;
    var t := PrepareNext(FORGETFUL, 0, EndTurn(RunTools(a, Batch([], true, SILENCE)), ANSWER, []));
    assert |t.t.added| == 1;
    assert |Steer(FORGETFUL, t).pending| == 1;
  }

  lemma SecondTurn(s: Run)
    requires !s.done && s.calls == 1 && |s.ends| == 1 && s.t.root == [] && s.t.from == |s.t.added| == 1
    ensures var r := Round(FORGETFUL, 1, s);
            r.done && |r.ends| == 2 && r.ends[1].root == [] && r.ends[1].from == 1 && r.calls == 1
  {}

  /** At the second turn_end the Agent still holds what it held and the loop does not, whatever that was. */
  lemma ReplacedContextDisagrees(agent: AgentState)
    requires agent.streaming.None? && agent.pendingToolCalls == {}
    ensures var r := RunLoop(FORGETFUL, 1, agent.messages, [], NO_QUEUES);
            |r.ends| == 2 && ReduceAll(agent, r.ends[1].trace).messages != r.ends[1].context
  {
    var s := Launch(FORGETFUL, agent.messages, [], NO_QUEUES);
    var one := Round(FORGETFUL, 1, s);
    var two := Round(FORGETFUL, 1, one);
    FirstTurn(agent.messages);
    SecondTurn(one);
    assert Play(FORGETFUL, 1, s) == Play(FORGETFUL, 1, one) == Play(FORGETFUL, 1, two) == two;
    assert AllTame(FORGETFUL, two.calls);
    TranscriptsAgree(FORGETFUL, 1, [], NO_QUEUES, agent, 1);
    var e := two.ends[1];
    assert |Messages(e.added[..e.from])| == 1;
  }
}
