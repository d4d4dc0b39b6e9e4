/** The Maestro lifecycle states and the table of legal transitions. */
module LifecycleContract {
  import opened CompletionStore

  datatype State =
    | PENDING | STARTING | RUNNING | WAITING_INPUT
    | SUCCEEDED | FAILED | INTERRUPTED | CANCEL_REQUESTED | CANCELLED | UNKNOWN

  predicate Terminal(s: State) {
    s in {SUCCEEDED, FAILED, INTERRUPTED, CANCELLED}
  }

  function Targets(from: State): set<State> {
    match from
    case PENDING => {STARTING, CANCEL_REQUESTED, FAILED}
    case STARTING => {RUNNING, WAITING_INPUT, CANCEL_REQUESTED, FAILED, INTERRUPTED}
    case RUNNING => {WAITING_INPUT, CANCEL_REQUESTED, SUCCEEDED, FAILED, INTERRUPTED}
    case WAITING_INPUT => {RUNNING, CANCEL_REQUESTED, SUCCEEDED, FAILED, INTERRUPTED}
    case CANCEL_REQUESTED => {SUCCEEDED, CANCELLED, FAILED, INTERRUPTED}
    case _ => {}
  }

  function Name(s: State): string {
    match s
    case PENDING => "PENDING"
    case STARTING => "STARTING"
    case RUNNING => "RUNNING"
    case WAITING_INPUT => "WAITING_INPUT"
    case SUCCEEDED => "SUCCEEDED"
    case FAILED => "FAILED"
    case INTERRUPTED => "INTERRUPTED"
    case CANCEL_REQUESTED => "CANCEL_REQUESTED"
    case CANCELLED => "CANCELLED"
    case UNKNOWN => "UNKNOWN"
  }

  /** isLegalMaestroTransition. */
  predicate Legal(from: State, to: State) {
    from != UNKNOWN && to != UNKNOWN && to in Targets(from)
  }

  function StateOf(t: TerminalState): State {
    match t
    case Succeeded => SUCCEEDED
    case Failed => FAILED
    case Interrupted => INTERRUPTED
    case Cancelled => CANCELLED
  }

  /** A history the table allows, from launch on. */
  predicate LegalHistory(h: seq<State>) {
    && h != [] && h[0] == PENDING
    && forall i :: 0 < i < |h| ==> Legal(h[i - 1], h[i])
  }

  /** Every legal history that ends cancelled asked for the cancellation in the step before. */
  lemma CancelledWasRequested(h: seq<State>)
    requires LegalHistory(h) && h[|h| - 1] == CANCELLED
    ensures |h| >= 2 && h[|h| - 2] == CANCEL_REQUESTED
  {
    assert Legal(h[|h| - 2], h[|h| - 1]);
  }

  /** A legal history holds at most one terminal state, and only at its end. */
  lemma TerminalIsLast(h: seq<State>, i: nat)
    requires LegalHistory(h) && i < |h| && Terminal(h[i])
    ensures i == |h| - 1
  {
    assert i + 1 < |h| ==> Legal(h[i + 1 - 1], h[i + 1]);
  }

  /** No legal history visits a state it has left, except RUNNING and WAITING_INPUT. */
  function Phase(s: State): nat {
    match s
    case PENDING => 0
    case STARTING => 1
    case RUNNING => 2
    case WAITING_INPUT => 2
    case CANCEL_REQUESTED => 3
    case _ => 4
  }

  lemma {:induction false} PhasesNeverFallBack(h: seq<State>, i: nat, j: nat)
    requires LegalHistory(h) && i <= j < |h|
    ensures Phase(h[i]) <= Phase(h[j])
    decreases j - i
  {
    if i < j {
      assert Legal(h[j - 1], h[j]);
      PhasesNeverFallBack(h, i, j - 1);
    }
  }
}
