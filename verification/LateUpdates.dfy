/** Tools that go on calling onUpdate after their end: in later calls, message brackets, turns, and after the run. */
module LateUpdates {
  import opened AgentEvents
  import opened ToolBatch

  /** Which strays call onUpdate, in order, while `k` events have been emitted. */
  type Noise = nat -> seq<nat>

  datatype Room = Room(heard: seq<Event>, strays: seq<Stray>)

  /** One late call, if the picked tool has ended by then and still has one to make. */
  function LateCall(strays: seq<Stray>, p: nat, k: nat): Room {
    if p >= |strays| || strays[p].since > k || strays[p].task.updates == [] then Room([], strays)
    else
      var t := strays[p].task;
      Room(OnUpdate(t), strays[p := strays[p].(task := Called(t))])
  }

  function LateCalls(strays: seq<Stray>, picks: seq<nat>, k: nat): Room
    decreases |picks|
  {
    if picks == [] then Room([], strays)
    else
      var one := LateCall(strays, picks[0], k);
      var rest := LateCalls(one.strays, picks[1..], k);
      Room(one.heard + rest.heard, rest.strays)
  }

  /** What is emitted from the k-th event on when the strays call in between and after the last event. */
  function Deliver(trace: seq<Event>, strays: seq<Stray>, noise: Noise, k: nat): seq<Event>
    requires k <= |trace|
    decreases |trace| - k
  {
    var room := LateCalls(strays, noise(k), k);
    room.heard + if k == |trace| then [] else [trace[k]] + Deliver(trace, room.strays, noise, k + 1)
  }

  ghost predicate AllShut(strays: seq<Stray>) { forall i :: 0 <= i < |strays| ==> strays[i].task.gate == Shut }

  lemma {:induction false} LateCallsUnheard(strays: seq<Stray>, picks: seq<nat>, k: nat)
    requires AllShut(strays)
    ensures LateCalls(strays, picks, k).heard == [] && AllShut(LateCalls(strays, picks, k).strays)
    decreases |picks|
  {
    if picks != [] { LateCallsUnheard(LateCall(strays, picks[0], k).strays, picks[1..], k); }
  }

  /** Behind shut gates no late call is heard, whenever it is made. */
  lemma {:induction false} DeliveredUnchanged(trace: seq<Event>, strays: seq<Stray>, noise: Noise, k: nat)
    requires AllShut(strays) && k <= |trace|
    ensures Deliver(trace, strays, noise, k) == trace[k..]
    decreases |trace| - k
  {
    LateCallsUnheard(strays, noise(k), k);
    if k < |trace| {
      DeliveredUnchanged(trace, LateCalls(strays, noise(k), k).strays, noise, k + 1);
    }
  }

  /** An open gate would let a late call through: after the end of its tool, and so outside its brackets. */
  lemma OpenGateIsHeard(t: Task, trace: seq<Event>)
    requires t.gate == Open && t.updates != []
    ensures Deliver(trace, [Stray(0, t)], k => if k == |trace| then [0] else [], 0)
        == trace + [ToolUpdate(t.call, t.updates[0])]
  {
    OpenGateFrom(t, trace, 0);
  }

  lemma {:induction false} OpenGateFrom(t: Task, trace: seq<Event>, k: nat)
    requires t.gate == Open && t.updates != [] && k <= |trace|
    ensures Deliver(trace, [Stray(0, t)], j => if j == |trace| then [0] else [], k)
         == trace[k..] + [ToolUpdate(t.call, t.updates[0])]
    decreases |trace| - k
  {
    var noise := j => if j == |trace| then [0] else [];
    var strays := [Stray(0, t)];
    if k < |trace| {
      OpenGateFrom(t, trace, k + 1);
      assert LateCalls(strays, noise(k), k) == Room([], strays);
    } else {
      assert [0][1..] == [];
      assert LateCalls(strays, [0], k).heard == LateCall(strays, 0, k).heard + [];
    }
  }
}
