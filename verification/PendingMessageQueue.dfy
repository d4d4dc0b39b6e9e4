/** The Agent's queue of messages waiting to be injected. */
module PendingMessageQueue {
  import opened AgentEvents
  import opened LoopMachine

  datatype QueueMode = All | OneAtATime

  class PendingMessageQueue {
    var messages: seq<Message>
    var mode: QueueMode
    /** Everything ever enqueued and everything ever drained. */
    ghost var enqueued: seq<Message>
    ghost var drained: seq<Message>

    /** First in, first out, exactly once. */
    ghost predicate Valid()
      reads this
    {
      enqueued == drained + messages
    }

    constructor (m: QueueMode)
      ensures Valid() && messages == [] && enqueued == [] && mode == m
    {
      messages, mode, enqueued, drained := [], m, [], [];
    }

    method Enqueue(m: Message)
      requires Valid()
      modifies this
      ensures Valid() && messages == old(messages) + [m] && enqueued == old(enqueued) + [m]
      ensures drained == old(drained) && mode == old(mode)
    {
      messages, enqueued := messages + [m], enqueued + [m];
    }

    method Drain() returns (r: seq<Message>)
      requires Valid()
      modifies this
      ensures Valid() && r + messages == old(messages) && enqueued == old(enqueued) && drained == old(drained) + r
      ensures mode == old(mode) && (mode == All ==> messages == []) && (mode == OneAtATime ==> |r| <= 1)
      ensures r == [] ==> old(messages) == []
      ensures r == Drained(mode == All, old(messages)) && messages == Rest(mode == All, old(messages))
    {
      if mode == All {
        r := messages;
        messages := [];
      } else if messages == [] {
        r := [];
      } else {
        r := messages[..1];
        messages := messages[1..];
      }
      drained := drained + r;
    }
  }
}
