# Models of the orchestrator and the agent loop

This project models the concurrent control logic of six components and proves what they promise over every run:

- the **Maestro lifecycle service** and its full-session adapter (`Lifecycle*.dfy`, `Handoff*.dfy`, `FullSession*.dfy`),
- the **session turn-lease registry** (`Lease*.dfy`, `TurnLeaseRegistry.dfy`),
- the **durable completion queue** (`Completion*.dfy`),
- the **agent loop**, the Agent that reduces its events, and the iteration budget (`Agent*.dfy`, `EventGrammar.dfy`,
  `AssistantStream.dfy`, `Tool*.dfy`, `LateUpdates.dfy`, `Loop*.dfy`, `TurnTraces.dfy`, `QueueConservation.dfy`, `IterationBudget.dfy`,
  `PendingMessageQueue.dfy`),
- the **RPC child-process multiplexer** and the line framing it shares with the streaming proxy (`Rpc*.dfy`,
  `LineFraming.dfy`, `ProxyReader.dfy`),
- the **model-catalog publication protocol** (`Publication*.dfy`, `ModelsRefresh.dfy`),

and the Telegram gateway's message splitter (`ChunkText.dfy`).

## How the models are built

Each component comes in two layers. A *machine* describes its state as a value and every synchronous stretch of code
between two `await`s as a total step function; the theorems quantify over all sequences of steps, so over every
interleaving. A *class* holds the fields the source updates in place, and each of its methods is proved to make exactly
the machine's step, so the theorems apply to the imperative code with its loops and early returns.

What the code cannot control is a parameter: clock readings are arbitrary integers, timers are steps that may happen at
any time, identifiers made by `randomUUID` are fresh numbers, hashes and JSON parsing are uninterpreted functions, and
the provider, hooks, tools, schedulers and users of the agent loop are functions from the number of the request to the
answer, so every behaviour of theirs is covered. A tool is a sequence of onUpdate calls with its settlement anywhere
among them; a scheduler chooses which tool proceeds and when the continuation that closes the gate runs, and calls left
over may come at any later time, during later turns and after the run. Message contents and tool-call ids of the agent
loop are only stored and compared, so numbers stand for them. The event grammar of the agent loop is an automaton in
`EventGrammar`: one `agent_start`; turns of one `turn_start` and one `turn_end`; `follow_up_start` only between turns;
message brackets that neither nest nor overlap tool executions; every `tool_execution_start` followed by its end with
updates in between only; one final `agent_end`.

Beside the safety theorems, modules named `*Effects`, `*Outcomes` and `LoopProgress` state what every operation brings
about, in definitions of their own: tables of states and events, records field by field, and what follows each turn of a
run.

## Where the code deviates from what one would expect

- Relaunching an instance id that is still running replaces its entry in the full-session adapter, and the first of the
  two launches to settle deletes the entry of the other: `FullSessionAdapter.ReachableIff` proves that exactly this makes
  a running launch unreachable for stop and cancel, `FullSessionAdapter.RelaunchHides` gives the run.
- A provider stream that starts twice leaves stale partial messages in the loop's context but not in the Agent's
  transcript. The event protocol (`packages/ai/src/types.ts`, line 515) speaks of one `start` before the updates;
  `AssistantStream.TameIff`, `LoopRuns.AgreementIff` and `LoopGrammar.TracesObeyGrammar` prove that at most one start per
  stream is exactly what is needed.
- The correlation key joins three identities with NUL, which validation does not exclude. `LifecycleService.KeyCollidesIff`
  proves exactly which requests share their key with another one, `LifecycleService.KeyInjective` that NUL-free parents
  never do.
- RUNNING to CANCELLED is illegal, so a session that reports CANCELLED on its own is recorded as FAILED;
  `LifecycleSafety.UnrequestedCancelFails` proves that this is the only settlement not recorded as reported.
- STARTING to WAITING_INPUT leaves `startedAt` unset, so a result can lack it (`LifecycleSafety.SucceedsUnstarted`);
  `LifecycleSafety.ConsistentAtEveryAwait` proves that it is set iff the record was ever RUNNING.
- The error text speaks of an RPC *line* over 1 MiB, but the check is on the buffered text plus the new chunk before
  any line is taken off (`packages/orchestrator/src/rpc-process.ts`, lines 171-175); the models follow the check.
  `RpcFraming.OverflowIff` proves exactly which chunkings are refused, `RpcFraming.TwoLongLines` gives a stream of lines
  within the bound that is accepted in two chunks and refused in one.
- An idempotent enqueue compares the result hash and the parents only, so a record can be marked queued with a stored
  completion of an earlier life of its instance, which may name another terminal state and be acknowledged already
  (`packages/orchestrator/src/completion-queue.ts`, lines 88-96). `Handoff.TerminalStateIff` proves exactly when the
  states differ, `HandoffWitness.QueuedAsAnotherState` gives a run in which they do.
- A context handed back by prepareNextTurn replaces the loop's but not the Agent's transcript; `LoopRuns.TranscriptsAgree`
  proves that the two agree from then on iff the context handed back was that transcript, and
  `LoopWitness.ReplacedContextDisagrees` gives a run in which they do not.

## Model

| member | source | states |
|---|---|---|
| LifecycleContract.CancelledWasRequested | packages/orchestrator/src/lifecycle-contract.ts:154-175 | every legal history that ends CANCELLED passed through CANCEL_REQUESTED in the step before |
| LifecycleContract.TerminalIsLast | packages/orchestrator/src/lifecycle-contract.ts:154-175 | a terminal state can only be the last of a legal history |
| LifecycleContract.PhasesNeverFallBack | packages/orchestrator/src/lifecycle-contract.ts:154-166 | legal histories never return to a phase they have left; only RUNNING and WAITING_INPUT alternate |
| LifecycleSafety.CompleteKeeps | packages/orchestrator/src/lifecycle-service.ts:556-616 | complete, from whatever an earlier throw left behind, closes a record once: result, completedAt and terminal state agree, at most one offer to the queue, one resolution |
| LifecycleSafety.SettleKeeps | packages/orchestrator/src/lifecycle-service.ts:543-553 | the try/catch around complete always ends in a consistent terminal record, also when the first completion throws midway and is retried as FAILED |
| LifecycleSafety.StepKeeps | packages/orchestrator/src/lifecycle-service.ts:329-412 | every step between awaits keeps the record invariant, only appends to the history, and throws only in adapter callbacks |
| LifecycleSafety.RunKeeps | packages/orchestrator/src/lifecycle-service.ts:524-616 | the invariant holds in every interleaving of launch, adapter callbacks, cancel, stop and setWaitingInput |
| LifecycleSafety.ConsistentAtEveryAwait | packages/orchestrator/src/lifecycle-service.ts:556-616 | from launch on, at every await point: completedAt is set iff a result is present iff the state is terminal, and the result names that state; the history is legal, and startedAt is set iff it holds RUNNING |
| LifecycleSafety.SucceedsUnstarted | packages/orchestrator/src/lifecycle-service.ts:534-545 | a launch that goes from STARTING to WAITING_INPUT and then settles succeeds with a result that has no startedAt |
| LifecycleSafety.TerminalIsAbsorbing | packages/orchestrator/src/lifecycle-service.ts:524-616 | after a terminal state nothing of state, history, result, offers or resolution ever changes |
| LifecycleSafety.SettlementIsFinal | packages/orchestrator/src/lifecycle-service.ts:513-554 | a settled adapter launch and a resumed stop leave the record terminal |
| LifecycleSafety.ControlNeverThrows | packages/orchestrator/src/lifecycle-service.ts:329-412 | cancel, stop and setWaitingInput never attempt an illegal transition from any reachable state, on either side of their awaits |
| LifecycleSafety.UnrequestedCancelFails | packages/orchestrator/src/lifecycle-service.ts:543-553 | a settlement is recorded as the adapter reported it (INTERRUPTED after a request read as CANCELLED) iff it is no CANCELLED that nobody requested; that one is recorded as FAILED |
| LifecycleSafety.CancelledOnItsOwn | packages/orchestrator/src/lifecycle-service.ts:524-553 | a launch whose adapter resolves with CANCELLED right after it started ends FAILED |
| LifecycleSafety.AdapterMoveKeeps | packages/orchestrator/src/lifecycle-service.ts:534-541 | an adapter callback that throws leaves the record as it was, but for the session identity of a well-formed runtime it reported |
| LifecycleEffects.StepFollowsPath | packages/orchestrator/src/lifecycle-service.ts:329-616 | every step of every reachable record takes it through exactly the states a table of states and events lists, dates the first RUNNING with the right clock reading, and throws exactly for adapter callbacks with a malformed runtime or after a cancellation request |
| LifecycleEffects.CallsInFlight | packages/orchestrator/src/lifecycle-service.ts:356-522 | which calls are suspended after each step, where the launch stands, and which session is known |
| LifecycleEffects.ClosesAsRecorded | packages/orchestrator/src/lifecycle-service.ts:524-603 | a record closes exactly by the steps listed; its result, hash, times and handoff, and the one offer made, are given field by field with the fixed and the error summaries |
| LifecycleEffects.CancelTakesEffect | packages/orchestrator/src/lifecycle-service.ts:400-403 | after its await cancel requests the cancellation iff it was accepted and the record has not ended; otherwise the record stays as it was |
| LifecycleEffects.StopTakesEffect | packages/orchestrator/src/lifecycle-service.ts:513-518 | stop requests the cancellation of every record that has not ended |
| LifecycleEffects.RequestStays | packages/orchestrator/src/lifecycle-service.ts:356-616 | a requested cancellation is never taken back before the record ends |
| LifecycleEffects.InterruptedAfterRequest | packages/orchestrator/src/lifecycle-service.ts:178-183 | a session interrupted at any time after the request is recorded as CANCELLED |
| LifecycleRecord.Record.MoveTo | packages/orchestrator/src/lifecycle-service.ts:605-616 | transition: legal moves change state, history and first start time; illegal ones throw without effect |
| LifecycleRecord.Record.HandOff | packages/orchestrator/src/lifecycle-service.ts:576-602 | the second half of complete on the record object is the machine's with the real queue's answer, and the queue makes exactly the enqueue of the result's identity, state, hash and summary |
| LifecycleRecord.Record.CompleteWith | packages/orchestrator/src/lifecycle-service.ts:556-603 | complete on the record object: fields written before the transition survive its throw |
| LifecycleRecord.Record.CompleteOrFail | packages/orchestrator/src/lifecycle-service.ts:543-553 | complete as reported, and as FAILED with the transition's error message as summary when that throws: together the machine's settlement, with at most one enqueue |
| LifecycleRecord.Record.StartLaunching | packages/orchestrator/src/lifecycle-service.ts:524-532 | the launch microtask up to the await of the adapter; a record cancelled before it closes as CANCELLED with "Cancelled before launch" |
| LifecycleRecord.Record.OnLaunchSettled | packages/orchestrator/src/lifecycle-service.ts:543-545 | the continuation after the adapter resolved always closes the record, and says whether the queue saw the first or the retried completion |
| LifecycleRecord.Record.OnLaunchFailed | packages/orchestrator/src/lifecycle-service.ts:546-553 | the continuation after the adapter rejected closes the record as FAILED with the message, unless it is closed |
| LifecycleRecord.Record.OnAdapterTransition | packages/orchestrator/src/lifecycle-service.ts:534-538 | the transition callback is ignored once terminal, throws exactly where the machine does, and replaces the known session identity by that of a reported runtime, also by none |
| LifecycleRecord.Record.CancelUntilAwait | packages/orchestrator/src/lifecycle-service.ts:356-400 | cancel up to its await requests cancellation only where that is legal and never throws from a reachable state |
| LifecycleRecord.Record.CancelAfterAwait | packages/orchestrator/src/lifecycle-service.ts:400-412 | the object makes the step of which `CancelTakesEffect` states the effect |
| LifecycleRecord.Record.StopUntilAwait | packages/orchestrator/src/lifecycle-service.ts:513-518 | stop up to its await requests cancellation unless that was done |
| LifecycleRecord.Record.StopAfterAwait | packages/orchestrator/src/lifecycle-service.ts:518-522 | stop after its await closes the record as CANCELLED with "Stopped by Maestro", unless it closed meanwhile |
| LifecycleRecord.Record.SetWaitingInput | packages/orchestrator/src/lifecycle-service.ts:329-341 | setWaitingInput moves between RUNNING and WAITING_INPUT only, and never throws from a reachable state |
| LifecycleService.KeyInjective | packages/orchestrator/src/lifecycle-service.ts:695-699 | two valid requests whose parents hold no NUL have the same correlation key iff parents and correlation id are the same |
| LifecycleService.KeyCollidesIff | packages/orchestrator/src/lifecycle-service.ts:695-699 | in general: a valid request shares its key with a different valid request iff its key has a second pair of NULs that cuts it into parts of at most 512 characters |
| LifecycleService.KeyCollides | packages/orchestrator/src/lifecycle-service.ts:695-699 | a NUL in the parent session, and likewise one in the parent instance, gives such a second pair of NULs when the parts fit |
| LifecycleService.Service.CleanupExpired | packages/orchestrator/src/lifecycle-service.ts:686-693 | exactly the records that completed before the cutoff go, and the correlation index keeps agreeing with the records |
| LifecycleService.Service.Launch | packages/orchestrator/src/lifecycle-service.ts:257-311 | a launch succeeds iff the request is valid, an adapter is registered, no retained record carries its correlation key and no retained record its instance id; each error is returned iff its own check is the first to fail; the index maps exactly the keys of retained records with a correlation id |
| Handoff.StepOffers | packages/orchestrator/src/lifecycle-service.ts:556-603 | which completion a step offers does not depend on the queue's answer |
| Handoff.AcceptedIsDelivering | packages/orchestrator/src/lifecycle-service.ts:581-592 | right after an accepted offer: the record's own completion was stored under a fresh id, pending and naming exactly its result, iff the queue held none for the child; otherwise the one held, of the same child, parents and hash, stands for it |
| Handoff.TerminalStateIff | packages/orchestrator/src/completion-queue.ts:84-126 | the completion stored for an accepted offer names the record's terminal state iff the queue held none for the child or held one of that state |
| HandoffWitness.QueuedAsAnotherState | packages/orchestrator/src/completion-queue.ts:88-96 | a run from the empty service in which a second life of an instance, launched after the first record expired, is marked queued as FAILED with a completion that says SUCCEEDED and was acknowledged before |
| Handoff.QueueKeepsDelivering | packages/orchestrator/src/completion-queue.ts:84-206 | no queue operation but an accepted acknowledge by the newest claim takes a completion out of delivery or changes what it says |
| Handoff.RunKeeps | packages/orchestrator/src/lifecycle-service.ts:556-603 | records and queue together, in every interleaving |
| HandoffRuns.QueuedMeansDelivered | packages/orchestrator/src/lifecycle-service.ts:576-602 | end to end, over every run: a record marked queued made an accepted offer; if the queue then held nothing for its child, that move stored its own completion, with exactly its state and hash, which is deliverable until a move after the offer acknowledges it; otherwise, as a separate case, the completion held stands for it |
| HandoffRuns.DeliversUntilAcked | packages/orchestrator/src/completion-queue.ts:84-206 | over every run a deliverable completion of a queued record stays so, saying the same, until a later move acknowledges it |
| HandoffRuns.OfferFound | packages/orchestrator/src/lifecycle-service.ts:576-602 | a record is marked queued only by an offer of its own that the queue accepted at a move of the run |
| LeaseSafety.HoldersNeverShare | packages/orchestrator/src/turn-lease.ts:77-151 | two held tokens never lead to the same lease or the same session id, aliases made by rebind included |
| LeaseSafety.ReleaseSucceedsOnce | packages/orchestrator/src/turn-lease.ts:123-132 | a held token can always be released, and only once |
| LeaseSafety.RemoveKeeps | packages/orchestrator/src/turn-lease.ts:178-185 | deleting keys of idle leases orphans no holder and no waiter |
| LeaseSteps.AcquireKeeps | packages/orchestrator/src/turn-lease.ts:77-121 | acquire keeps the registry invariant; the new token holds or waits, all others keep their fate |
| LeaseTurns.ExpireKeeps | packages/orchestrator/src/turn-lease.ts:110-116 | a timer settles its waiter iff it still waits, and keeps the invariant |
| LeaseTurns.ReleaseIsPass | packages/orchestrator/src/turn-lease.ts:123-132 | releasing a held token hands the lease to the head of the queue, or to nobody |
| LeaseTurns.ReleaseKeeps | packages/orchestrator/src/turn-lease.ts:123-176 | release keeps the invariant and answers true iff the token is held |
| LeaseTurns.RebindKeeps | packages/orchestrator/src/turn-lease.ts:134-151 | rebind keeps every holder and waiter anchored to its lease, including waiters queued under the old session id |
| LeaseEffects.AcquireTakes | packages/orchestrator/src/turn-lease.ts:77-121 | acquire holds a free or new lease at once and else is last in its queue; holder, queue and time of last use are given, and only victims of an eviction for a new key go |
| LeaseEffects.ReleasePasses | packages/orchestrator/src/turn-lease.ts:123-176 | a release hands the lease to the first in the queue or to nobody, with its time of last use, and touches no other lease |
| LeaseEffects.RebindIff | packages/orchestrator/src/turn-lease.ts:134-151 | rebind succeeds iff the token holds its lease and the new session id is another one of valid length whose lease nobody else holds; then exactly the session id, the key and the time of last use change |
| LeaseEffects.FatesAreDecided | packages/orchestrator/src/turn-lease.ts:77-176 | over every run a waiter times out exactly by its own timer, is granted exactly when the holder of its lease releases and it is first in the queue, and a held token is given back exactly by its release |
| LeaseEffects.NewFate | packages/orchestrator/src/turn-lease.ts:77-121 | a new token holds at once iff its session is unknown or free, and else waits; ids of a wrong length get none |
| LeaseEffects.RebindMoves | packages/orchestrator/src/turn-lease.ts:134-151 | a rebound token answers to its new session id, which leads to the lease it held |
| LeaseRuns.RunKeeps | packages/orchestrator/src/turn-lease.ts:77-185 | the invariant over every run; a waiter is granted or timed out, never both, and a release is final |
| LeaseRuns.TurnsAreExclusive | packages/orchestrator/src/turn-lease.ts:77-185 | over every run each held token holds the lease its session id leads to, no two share a session id, and nobody waits for a lease without holder |
| LeaseRuns.TurnsAreFair | packages/orchestrator/src/turn-lease.ts:98-121 | over every run, per lease, the grants followed by the queue are the arrivals that did not time out, in arrival order |
| LeaseEviction.EvictionIsLru | packages/orchestrator/src/turn-lease.ts:178-185 | eviction takes only idle keys, none used later than an idle key it leaves |
| LeaseEviction.EvictionIsExact | packages/orchestrator/src/turn-lease.ts:178-185 | as many keys go as are needed for one more, or all idle ones if these are fewer |
| LeaseEviction.EvictionIsStable | packages/orchestrator/src/turn-lease.ts:178-185 | among keys used at the same time the one registered first goes first |
| LeaseEviction.RegistrationIsBounded | packages/orchestrator/src/turn-lease.ts:153-163 | after registering an unknown session there are at most maxEntries entries, or every entry is busy |
| TurnLeaseRegistry.SessionTurnLeaseRegistry.Acquire | packages/orchestrator/src/turn-lease.ts:77-121 | acquire up to its await is the machine's step with both clock readings; it is refused, without effect, iff an argument is invalid |
| TurnLeaseRegistry.SessionTurnLeaseRegistry.GetOrCreate | packages/orchestrator/src/turn-lease.ts:153-163 | touches an existing lease, or evicts and creates; the session id then leads to the lease returned |
| TurnLeaseRegistry.SessionTurnLeaseRegistry.GrantNext | packages/orchestrator/src/turn-lease.ts:165-176 | the loop that skips settled waiters grants the lease to the first unsettled one, or to nobody |
| TurnLeaseRegistry.SessionTurnLeaseRegistry.Release | packages/orchestrator/src/turn-lease.ts:123-132 | release is the machine's step, and answers undefined and unknown tokens with false and no effect |
| TurnLeaseRegistry.SessionTurnLeaseRegistry.Rebind | packages/orchestrator/src/turn-lease.ts:134-151 | rebind is the machine's step, refuses undefined and unknown tokens, and throws exactly for a different id of more than 512 characters with a live token |
| TurnLeaseRegistry.SessionTurnLeaseRegistry.OnTimeout | packages/orchestrator/src/turn-lease.ts:110-116 | the timer callback is the step that expires a waiter, and does nothing to a settled one |
| TurnLeaseRegistry.SessionTurnLeaseRegistry.EvictIdle | packages/orchestrator/src/turn-lease.ts:178-185 | deletes exactly the least recently used idle keys over the bound |
| TurnLeaseRegistry.LeastRecentlyUsed | packages/orchestrator/src/turn-lease.ts:178-185 | filter, sort and slice give exactly the keys to evict |
| TurnLeaseRegistry.IsIdle | packages/orchestrator/src/turn-lease.ts:141-144 | no holder and no unsettled waiter |
| TurnLeaseRegistry.Splice | packages/orchestrator/src/turn-lease.ts:113-114 | indexOf and splice remove the first occurrence and nothing else |
| CompletionSafety.EnqueueOf | packages/orchestrator/src/completion-queue.ts:84-126 | a successful enqueue leaves the completion stored, under a fresh id unless the same one was there; a refused one changes nothing but the room made |
| CompletionEffects.EnqueueAnswers | packages/orchestrator/src/completion-queue.ts:84-126 | refused iff malformed; the completion that stands for the child is returned, or is a conflict if hash or parents differ; otherwise a record with exactly the given fields is stored, unless unacknowledged records fill the queue |
| CompletionEffects.EnqueueDrops | packages/orchestrator/src/completion-queue.ts:84-107 | of the stored records exactly the expired ones go, and the acknowledged ones when room is needed |
| CompletionEffects.CleanupOf | packages/orchestrator/src/completion-queue.ts:196-206 | a cleanup drops exactly the records acknowledged before the retention time |
| CompletionEffects.ClaimHandsOut | packages/orchestrator/src/completion-queue.ts:128-159 | a claim hands out exactly the first limit records, in order, that name the claiming parent, are not acknowledged and not held by another owner within the lease; each is then claimed by the owner under the next generation, and nothing else changes |
| CompletionEffects.OnlyForItsParent | packages/orchestrator/src/completion-queue.ts:55-58 | every claim issued is for a record that names the claiming parent, by instance if it has one and else by session |
| CompletionEffects.AcknowledgeIff | packages/orchestrator/src/completion-queue.ts:161-171 | acknowledge succeeds iff a record is under exactly that claim, and dates it once |
| CompletionEffects.ReleaseIff | packages/orchestrator/src/completion-queue.ts:173-189 | release succeeds iff a record is held under exactly that claim, and frees it |
| CompletionSafety.StepEffect | packages/orchestrator/src/completion-queue.ts:84-206 | all that one operation can do to one record |
| CompletionSafety.StepStored | packages/orchestrator/src/completion-queue.ts:84-206 | ids stay unique and increasing, one record per child, fields agree with the delivery state, the bound holds |
| CompletionRuns.RunKeeps | packages/orchestrator/src/completion-queue.ts:84-206 | claim generations are handed out once and holders hold issued claims, over every run |
| CompletionRuns.GoneByAcknowledge | packages/orchestrator/src/completion-queue.ts:161-206 | a record stops being deliverable only by an acknowledge for its newest claim |
| CompletionRuns.LostOnlyIfAcknowledged | packages/orchestrator/src/completion-queue.ts:84-206 | over every run a completion leaves storage only after such an acknowledge succeeded |
| CompletionRuns.RecordsOnlyAdvance | packages/orchestrator/src/completion-queue.ts:128-189 | contents never change, generations never fall, acknowledged is absorbing |
| CompletionRuns.SpentForGood | packages/orchestrator/src/completion-queue.ts:161-189 | a superseded or released claim can neither acknowledge nor release, then or ever after |
| CompletionRuns.ReleaseSpends | packages/orchestrator/src/completion-queue.ts:173-189 | a release spends its claim |
| CompletionRuns.ReclaimSpends | packages/orchestrator/src/completion-queue.ts:139-156 | a newer claim has a larger generation and spends the older one |
| CompletionRuns.OneLiveClaim | packages/orchestrator/src/completion-queue.ts:128-189 | of all claims on a record at most one is live |
| CompletionRuns.CapacityHolds | packages/orchestrator/src/completion-queue.ts:98-107 | the capacity bound survives every run |
| CompletionQueue.ClaimRecords | packages/orchestrator/src/completion-queue.ts:138-156 | the claiming loop hands out exactly the first limit eligible records; no change without a claim |
| CompletionQueue.MaestroCompletionQueue.EnqueueCompletion | packages/orchestrator/src/completion-queue.ts:84-126 | enqueue over the persisted sequence is the machine's: idempotent per child, hash and parents, refusing conflicts and a full queue |
| CompletionQueue.MaestroCompletionQueue.ClaimCompletions | packages/orchestrator/src/completion-queue.ts:128-159 | refused iff an identity or the limit is out of bounds, otherwise exactly the claims of `ClaimHandsOut` |
| CompletionQueue.MaestroCompletionQueue.AcknowledgeClaim | packages/orchestrator/src/completion-queue.ts:161-171 | true iff the claim is the newest and held or already acknowledged; only then, and only once, the record changes |
| CompletionQueue.MaestroCompletionQueue.ReleaseClaim | packages/orchestrator/src/completion-queue.ts:173-189 | true iff the claim is held; the record is then pending again with its generation kept |
| AgentEvents.ReducerTranscript | packages/agent/src/agent.ts:559-586 | for every event sequence the Agent's transcript is what it held before followed by the closed messages |
| EventGrammar.ReducerReflects | packages/agent/src/agent.ts:559-586 | on accepted traces the Agent shows a streaming message exactly within a bracket, and no tool call as pending that has ended |
| EventGrammar.PendingAreOpen | packages/agent/src/agent.ts:574-586 | where open call ids are distinct, the Agent's pending calls are exactly the ones started and not ended |
| EventGrammar.ShowsTheLatest | packages/agent/src/agent.ts:559-600 | the Agent shows the last message started or updated and not ended, and the last error a turn ended with |
| AssistantStream.StreamAssistantResponse | packages/agent/src/agent-loop.ts:316-409 | the streaming loop with its in-place patching |
| AssistantStream.TameIff | packages/agent/src/agent-loop.ts:351-408 | a stream appends exactly the final message, and keeps message brackets apart, iff it starts at most once; otherwise the context is longer by one stale partial per extra start |
| AssistantStream.TameTrace | packages/agent/src/agent-loop.ts:351-408 | a stream that starts at most once emits one bracket: its start, every update after it, and the final message |
| AssistantStream.StreamEnds | packages/agent/src/agent-loop.ts:383-407 | whatever is streamed, exactly the final message is closed |
| AssistantStream.TwoStartsLeaveAPartial | packages/agent/src/agent-loop.ts:356-361 | two starts leave the first partial in the context |
| ToolBatch.Started | packages/agent/src/agent-loop.ts:481-518 | the started calls are a prefix, all of the batch unless aborted |
| ToolBatch.ExecuteToolCallsSequential | packages/agent/src/agent-loop.ts:470-524 | the sequential executor over tools that settle among their onUpdate calls: results in order, its trace, the tools it leaves behind and its terminate flag |
| ToolBatch.AwaitAll | packages/agent/src/agent-loop.ts:577-579 | Promise.all over the running tools: whatever the schedule, the events and places of the interleaving |
| ToolBatch.EveryTerminates | packages/agent/src/agent-loop.ts:619-621 | terminate iff there are results and every one asks for it |
| ToolExecutors.ExecuteToolCallsParallel | packages/agent/src/agent-loop.ts:526-591 | the parallel executor under an arbitrary schedule: preparation in order, tools interleaved, places read off in source order |
| ToolExecutors.FailToolCallsFromTruncatedMessage | packages/agent/src/agent-loop.ts:418-443 | every call of a truncated message fails, none terminates the batch |
| ToolExecutors.ExecuteToolCalls | packages/agent/src/agent-loop.ts:448-463 | one at a time iff the configuration or one of the called tools demands it, otherwise in parallel |
| ToolExecutors.ResultsInSourceOrder | packages/agent/src/agent-loop.ts:526-591 | for every schedule: the places filled along the interleaving, read off in order, are one result per started call in source order; all calls are started iff no abort was seen before the last |
| ToolExecutors.EveryPlaceFilled | packages/agent/src/agent-loop.ts:559-579 | in whatever order the tools end, every place ends up with the outcome of its own call |
| ToolExecutors.ParallelRefinesSequential | packages/agent/src/agent-loop.ts:470-591 | when outcomes depend on calls only and nothing is aborted, messages and terminate flag are those of the sequential executor |
| ToolEffects.BatchAnswers | packages/agent/src/agent-loop.ts:234-253 | what the calls of a reply answer: nothing without calls, errors for a cut-off reply, else the outcomes of the started calls in order; the loop has more to do iff some result does not end the run |
| ToolEffects.BatchChoice | packages/agent/src/agent-loop.ts:448-463 | calls run one after the other iff the configuration or a called tool demands it |
| ToolEffects.CutOffIsNotExecuted | packages/agent/src/agent-loop.ts:239-246 | the calls of a reply cut off by length are not executed: no tool is asked, each call is announced, ended and answered with an error |
| ToolEffects.OneCallTrace | packages/agent/src/agent-loop.ts:481-518 | a call that runs alone emits its start, its updates, its end with its outcome and its result message |
| ToolEffects.ParallelAnnounces | packages/agent/src/agent-loop.ts:536-557 | a parallel batch announces every started call and ends those at once that need no execution |
| ToolTraces.SequentialSound | packages/agent/src/agent-loop.ts:481-518 | sequential traces obey the grammar, close exactly the results and leave no tool behind with an open gate |
| ToolTraces.ParallelSound | packages/agent/src/agent-loop.ts:536-585 | the same of parallel traces, for every schedule |
| ToolTraces.InterleaveParses | packages/agent/src/agent-loop.ts:705-746 | any interleaving of tools that call onUpdate before, at and after they settle keeps updates between start and end, closes no message and shuts every gate |
| ToolShuffle.InterleaveShuffles | packages/agent/src/agent-loop.ts:705-746 | an interleaving is a shuffle: each tool's events are its updates in order, all those before it settled and perhaps some until its continuation runs, then its end |
| ToolShuffle.EachCallRunsOnce | packages/agent/src/agent-loop.ts:559-579 | a prepared call's events in the parallel phase are exactly one such execution of its own |
| LateUpdates.DeliveredUnchanged | packages/agent/src/agent-loop.ts:716-727 | onUpdate calls of ended tools, whenever and however often they come, reach nobody when every gate is shut |
| LateUpdates.OpenGateIsHeard | packages/agent/src/agent-loop.ts:716-727 | with an open gate one such call would be heard after the end of its tool |
| LoopRuns.LateCallsAreDropped | packages/agent/src/agent-loop.ts:705-746 | over every run, also during later turns and after agent_end, late onUpdate calls add nothing to what is heard |
| TurnTraces.BatchSound | packages/agent/src/agent-loop.ts:234-247 | the batch of any reply, by whichever executor, is a well-formed piece of a turn that leaves no gate open |
| LoopSafety.TurnKeeps | packages/agent/src/agent-loop.ts:178-291 | one pass of the inner loop keeps context, newMessages, trace and grammar in step |
| LoopSafety.RoundKeeps | packages/agent/src/agent-loop.ts:174-307 | one pass of the inner loop and the outer loop's check |
| LoopRuns.RunsEndWithinBudget | packages/agent/src/agent-loop.ts:167-307 | every run ends, after at most maxTotal provider calls and maxTotal + 1 turns, for any supply of tool calls, steering and follow-ups |
| LoopProgress.EveryTurnIsFollowed | packages/agent/src/agent-loop.ts:171-309 | from trace, turn ends and the world alone: every turn takes exactly the steering or follow-up messages due to it, adds its reply and the results of its calls, and is followed by another turn iff the reply did not fail, the stop hook said no, and a result does not end the run or steering waits; else by follow-ups if some wait; else by agent_end |
| LoopProgress.ToolResultsAreAnswered | packages/agent/src/agent-loop.ts:178-290 | while the budget lasts the provider is asked again after every batch with a result that does not end the run |
| LoopProgress.RunBegins | packages/agent/src/agent-loop.ts:108-172 | a run begins with its prompts and the steering messages that wait, unless the first poll is skipped |
| LoopProgress.FirstReply | packages/agent/src/agent-loop.ts:97-145 | what a run adds begins with its prompts, the waiting steering messages and the first reply |
| LoopProgress.ContextsAreHandedOn | packages/agent/src/agent-loop.ts:257-265 | every turn works on the context prepareNextTurn last handed back, or on the one the run began with |
| LoopRuns.RoundWithin | packages/agent/src/agent-loop.ts:174-307 | the remaining budget decreases in every round of the nested loops |
| LoopRuns.AgentKeepsMessages | packages/agent/src/agent-loop.ts:157-310 | whatever the provider streams, the message_end events list newMessages and the Agent's transcript is the old one followed by them |
| LoopRuns.TranscriptsAgree | packages/agent/src/agent-loop.ts:157-310 | at every turn_end of a run whose streams start at most once: context = its root + messages added since, message_end events = newMessages, the Agent's transcript = the context iff the context prepareNextTurn last handed back was that transcript (always when it hands none back), no tool call pending, nothing streaming |
| LoopWitness.ReplacedContextDisagrees | packages/agent/src/agent-loop.ts:263-265 | a two-turn run whose hook hands back an empty context: at the second turn_end the transcript of any Agent differs from the context |
| LoopGrammar.TracesObeyGrammar | packages/agent/src/agent-loop.ts:97-310 | what is heard of a run, late onUpdate calls included, is a sentence of the event grammar iff each of its streams started at most once |
| LoopGrammar.WildTurnBreaks | packages/agent/src/agent-loop.ts:354-361 | a stream that starts again makes its turn ungrammatical for good |
| LoopRuns.AgreementIff | packages/agent/src/agent-loop.ts:316-409 | with a context that is never replaced, Agent and loop agree at the end of a run iff every stream of the run started at most once |
| QueueConservation.NothingDrainedIsLost | packages/agent/src/agent-loop.ts:171-303 | on every exit path of a run, what it drained from a queue is in its messages |
| QueueConservation.DrainMoves | packages/agent/src/agent.ts:143-156 | draining moves messages from the head of one queue to the end of the ledger and leaves the other queue alone |
| AgentSessions.ContinueSound | packages/agent/src/agent.ts:375-402 | continue() loses and repeats no queued message, whichever source its prompts come from |
| AgentSessions.ContinueIff | packages/agent/src/agent.ts:375-402 | continue() throws iff there is nothing to continue, and otherwise runs with what the steering queue, then the follow-up queue hands out in its mode, or with the transcript as it stands |
| AgentSessions.RunShows | packages/agent/src/agent.ts:501-550 | after a run the Agent shows the last error of that run and nothing in progress |
| AgentSessions.RunAnswers | packages/agent/src/agent.ts:404-440 | a run puts its prompts, the waiting steering messages and the reply, or the failure message, into ledger and transcript |
| AgentSessions.PromptTakesEffect | packages/agent/src/agent.ts:364-372 | prompt() puts its messages, the waiting steering messages and a reply into the ledger |
| AgentSessions.ContinueTakesEffect | packages/agent/src/agent.ts:375-402 | so does continue() with what it continues with |
| AgentSessions.QueuesAreConserved | packages/agent/src/agent.ts:127-161 | over any life of an Agent, in either drain mode, runs that fail for their maxIterations included: queued messages = injected messages in order, once each, followed by those still queued; the transcript is the ledger |
| AgentSessions.FailureSound | packages/agent/src/agent.ts:526-542 | a run whose budget cannot be created is closed by handleRunFailure: its events obey the grammar, and the transcript grows by the prompts and the failure message |
| IterationBudget.IterationBudget.Consume | packages/agent/src/iteration-budget.ts:18-22 | takes one call iff one is left |
| IterationBudget.IterationBudget.Refund | packages/agent/src/iteration-budget.ts:24-26 | gives one call back |
| IterationBudget.IterationBudget.Remaining | packages/agent/src/iteration-budget.ts:32-34 | used and remaining add up to the maximum |
| PendingMessageQueue.PendingMessageQueue.Enqueue | packages/agent/src/agent.ts:135-137 | appends, keeping enqueued = drained + waiting |
| PendingMessageQueue.PendingMessageQueue.Drain | packages/agent/src/agent.ts:143-156 | all messages or the first, keeping enqueued = drained + waiting; empty only for an empty queue |
| AgentLoop.PlayTurn | packages/agent/src/agent-loop.ts:174-307 | a pass of the inner loop, and where its condition sends the run, is one round of the machine |
| AgentLoop.AgentRun.RunLoop | packages/agent/src/agent-loop.ts:157-310 | the nested loops compute the machine's run and terminate |
| AgentLoop.AgentRun.RunAgentLoop | packages/agent/src/agent-loop.ts:97-145 | agent_start, turn_start and the prompts, then the loop, on whatever the budget has left: exactly the machine's run |
| AgentLoop.AgentRun.Turn | packages/agent/src/agent-loop.ts:178-290 | one pass of the inner loop |
| AgentLoop.AgentRun.React | packages/agent/src/agent-loop.ts:227-290 | what follows a reply: failure, tools, turn_end, prepareNextTurn, the stop hook, the next poll and the flag for more; `EveryTurnIsFollowed` states where that leads |
| AgentLoop.AgentRun.PrepareNext | packages/agent/src/agent-loop.ts:257-265 | a context handed back replaces the loop's, and becomes the root of what is added from then on |
| AgentLoop.AgentRun.RunTools | packages/agent/src/agent-loop.ts:233-253 | the tool batch and its results in context and newMessages |
| AgentLoop.AgentRun.Exhaust | packages/agent/src/agent-loop.ts:197-223 | the exhausted budget |
| AgentLoop.AgentRun.Inject | packages/agent/src/agent-loop.ts:186-194 | pending messages enter context and newMessages, each in its own bracket |
| AgentLoop.AgentRun.Steer | packages/agent/src/agent.ts:490-496 | getSteeringMessages with skipInitialSteeringPoll |
| AgentLoop.AgentRun.WouldStop | packages/agent/src/agent-loop.ts:293-309 | the follow-up poll of the outer loop |
| AgentObject.Agent.ProcessEvents | packages/agent/src/agent.ts:559-600 | the switch changes the Agent's state as the reducer of the transcript theorems does |
| AgentObject.Agent.RunWithLifecycle | packages/agent/src/agent.ts:501-550 | a run between its set-up and finishRun, with activeRun set meanwhile, takes the Agent to the state its session machine says; maxIterations below 1 fails the run |
| AgentObject.Agent.PromptWith | packages/agent/src/agent.ts:364-372 | prompt throws without effect iff a run is active, otherwise runs with the messages as prompts |
| AgentObject.Agent.Continue | packages/agent/src/agent.ts:375-402 | continue throws without effect when a run is active or nothing can be continued, otherwise takes steering, then follow-ups, then the transcript as it stands |
| RpcProtocol.RunKeeps | packages/orchestrator/src/rpc-process.ts:211-339 | the invariant of the request bookkeeping over every interleaving; history is only extended |
| RpcProtocol.EveryRequestSettlesOnce | packages/orchestrator/src/rpc-process.ts:283-339 | from a fresh process every promise handed out was settled by no call while pending and by exactly one call otherwise, all of them once the process closed; pending stays within its limit with at most one prompt |
| RpcOutcomes.SettledByFirstVerdict | packages/orchestrator/src/rpc-process.ts:211-339 | over every run: a request is pending iff it was sent and nothing has decided it since, and was resolved with a line, timed out, cancelled, failed to be written or rejected for a cause iff the first event after its send that decides it means just that |
| RpcOutcomes.SendAcceptedIff | packages/orchestrator/src/rpc-process.ts:283-298 | send hands out a promise iff the process lives, no limit is reached, and id and timeout are valid and the id new |
| RpcOutcomes.RefusalReasons | packages/orchestrator/src/rpc-process.ts:283-300 | a refused send names the first reason that applies |
| RpcOutcomes.SendSpends | packages/orchestrator/src/rpc-process.ts:295-300 | an id is spent when its promise is handed out, and already when only the timeout was wrong |
| RpcProcess.ReadLineIff | packages/orchestrator/src/rpc-process.ts:223-232 | a line answers a request iff it parses as a response with its id |
| RpcProtocol.ClosedForGood | packages/orchestrator/src/rpc-process.ts:216-221 | after exit or dispose nothing is ever pending again and every send is refused |
| RpcProtocol.IdsNeverReused | packages/orchestrator/src/rpc-process.ts:295-298 | an id once accepted is refused for the rest of the process's life |
| RpcProcess.RpcProcessInstance.Send | packages/orchestrator/src/rpc-process.ts:283-339 | send throws the first refusal that applies, and otherwise hands out a pending promise, cancelled at once when the signal was aborted |
| RpcProcess.RpcProcessInstance.RejectAllPending | packages/orchestrator/src/rpc-process.ts:255-261 | the rejecting loop settles every pending promise once with the cause and touches no other |
| RpcProcess.RpcProcessInstance.HandleLine | packages/orchestrator/src/rpc-process.ts:182-187 | handleLine and the protocol failure its throw leads to are the step of which `SettledByFirstVerdict` states the effect |
| RpcProcess.RpcProcessInstance.OnStdout | packages/orchestrator/src/rpc-process.ts:170-189 | the framing loop over the stdout buffer |
| RpcProcess.RpcProcessInstance.MarkExited | packages/orchestrator/src/rpc-process.ts:216-221 | the first exit rejects all that is pending, later ones do nothing |
| RpcProcess.RpcProcessInstance.Dispose | packages/orchestrator/src/rpc-process.ts:377-381 | dispose up to its first await refuses further sends and rejects all that is pending |
| RpcProcess.RpcProcessInstance.OnTimeout | packages/orchestrator/src/rpc-process.ts:321-328 | the timer callback settles its request only while that is pending |
| RpcProcess.RpcProcessInstance.OnAbort | packages/orchestrator/src/rpc-process.ts:303-310 | the abort listener settles its request only while that is pending |
| RpcProcess.RpcProcessInstance.OnWriteError | packages/orchestrator/src/rpc-process.ts:330-337 | the write callback settles its request only while that is pending |
| LineFraming.FramingRoundTrip | packages/orchestrator/src/rpc-process.ts:176-181 | writing the lines back with their newlines and the rest restores the stream |
| LineFraming.FramesHoldNoNewline | packages/orchestrator/src/rpc-process.ts:176-181 | no line and no rest holds a newline |
| LineFraming.FramingSplits | packages/orchestrator/src/rpc-process.ts:170-189 | a stream may be framed in two pieces, carrying the unfinished line over |
| RpcFraming.DrainIsFraming | packages/orchestrator/src/rpc-process.ts:176-188 | draining handles exactly the complete lines and keeps the unfinished one |
| RpcFraming.ChunkingIrrelevant | packages/orchestrator/src/rpc-process.ts:170-189 | while chunks fit and lines parse, the state depends on the concatenated stream only |
| RpcFraming.OverflowIff | packages/orchestrator/src/rpc-process.ts:170-175 | of a stream whose lines parse, a chunk is refused for its size, and then everything pending is rejected and every later chunk refused too, iff one overfills the unfinished line left before it |
| RpcFraming.BoundIsOnTheBuffer | packages/orchestrator/src/rpc-process.ts:170-175 | two lines within the bound that exceed it together are handled when they come in two chunks and fail the protocol when they come in one |
| RpcFraming.TwoLongLines | packages/orchestrator/src/rpc-process.ts:170-175 | so does a line of 600000 characters sent twice |
| ProxyReader.Read | packages/agent/src/proxy.ts:183-209 | pushes exactly the trimmed payloads of the `data: ` lines of the concatenated stream, up to the first that does not parse, however the stream was chunked |
| ProxyReader.PayloadIff | packages/agent/src/proxy.ts:197-203 | the payload of a line is what follows `data: `, trimmed, if anything is left |
| ProxyReader.ReadableIsLongest | packages/agent/src/proxy.ts:197-208 | what is pushed is the longest run of payloads from the start that all parse |
| ProxyReader.ReadChunks | packages/agent/src/proxy.ts:185-209 | the chunk loop carries the unfinished line over, for any filter of lines |
| ProxyReader.ReadLines | packages/agent/src/proxy.ts:197-208 | the inner loop over the lines of one chunk |
| ProxyReader.ReadStops | packages/agent/src/proxy.ts:197-208 | after an unreadable line later chunks change nothing |
| PublicationChain.BodiesNeverOverlap | packages/ai/src/models.ts:351-367 | at most one publication body of a provider runs at a time |
| PublicationChain.RunKeeps | packages/ai/src/models.ts:327-372 | the chain invariant over every run of one provider |
| PublicationChain.PublicationOrder | packages/ai/src/models.ts:345-372 | store mutations have nondecreasing generations, bodies are apart, and in-memory updates run in chain order for the then current generation with a live signal |
| PublicationChain.SupersededNeverUpdates | packages/ai/src/models.ts:354-364 | once superseded, also during the store write, no update of that generation runs any more |
| PublicationChain.SupersedingAborts | packages/ai/src/models.ts:327-344 | superseding a refresh in progress aborts it: every publication of it, queued before or after, carries an aborted signal |
| PublicationEffects.StepMovesPublications | packages/ai/src/models.ts:353-365 | where each event takes each publication, and which lose their signal |
| PublicationEffects.StepUpdatesOnSuccess | packages/ai/src/models.ts:356-365 | the in-memory update runs exactly when a publication succeeds, the store changes exactly when its operation takes effect |
| PublicationEffects.StepMovesChain | packages/ai/src/models.ts:327-370 | what each event does to the generation, the refresh in progress and the chain |
| PublicationEffects.CurrentGetsThrough | packages/ai/src/models.ts:351-367 | a publication of the current refresh whose turn has come succeeds and runs its update, whatever else happens meanwhile but a newer refresh or an abort |
| ModelsRefresh.ModelsImpl.SupersedeProviderRefresh | packages/ai/src/models.ts:327-336 | raises one provider's generation, forgets its controller and aborts the publications under it, leaving the other providers alone |
| ModelsRefresh.ModelsImpl.BeginProviderRefresh | packages/ai/src/models.ts:338-343 | supersedes and installs a controller of its own |
| ModelsRefresh.ModelsImpl.EndRefresh | packages/ai/src/models.ts:438-441 | the finally clause forgets the controller only if it is still its own |
| ModelsRefresh.ModelsImpl.QueuePublication | packages/ai/src/models.ts:351-370 | joins the provider's chain behind its tail, with a signal aborted if the caller's or the refresh's is |
| ModelsRefresh.ModelsImpl.StartPublication | packages/ai/src/models.ts:353-360 | the body up to the store operation, which only a current generation with a live signal reaches |
| ModelsRefresh.ModelsImpl.OnStoreSettled | packages/ai/src/models.ts:356-364 | after the store operation the update runs only if the generation is still current and the signal live |
| ModelsRefresh.ModelsImpl.OnTailSettled | packages/ai/src/models.ts:368-370 | forgets the chain when nothing was queued behind it |
| FullSessionAdapter.NoResourceLeaks | packages/orchestrator/src/lifecycle-adapters.ts:98-145 | no launch settles with a live resource: its completion settled or stop was called on it |
| FullSessionAdapter.ReachableIff | packages/orchestrator/src/lifecycle-adapters.ts:102-128 | all running launches stay reachable for stop and cancel iff the move does not relaunch a running instance id |
| FullSessionAdapter.RelaunchHides | packages/orchestrator/src/lifecycle-adapters.ts:102-128 | two launches of one id: stop finds only the second, and neither once the first has settled |
| FullSessionAdapter.AlwaysReachableIff | packages/orchestrator/src/lifecycle-adapters.ts:98-145 | the same over whole runs |
| FullSessionAdapter.EarlyStopHolds | packages/orchestrator/src/lifecycle-adapters.ts:107-111 | a stop before the resource arrives always leads to stop and never to a RUNNING or WAITING_INPUT transition |
| FullSessionAdapter.EarlyCancelHolds | packages/orchestrator/src/lifecycle-adapters.ts:112-118 | a cancel before the resource arrives never leads to a RUNNING or WAITING_INPUT transition, and the resource is told to cancel or stopped |
| FullSessionAdapter.AnswersAreEarned | packages/orchestrator/src/lifecycle-adapters.ts:108-123 | a launch that resolves as cancelled was told so, stopped the resource and made no transition; one that resolves with the session's completion had it settle |
| FullSessionLaunch.ArrivalIff | packages/orchestrator/src/lifecycle-adapters.ts:106-123 | what the arrival of the resource leads to, by what was requested before |
| FullSessionLaunch.CancelAnswerIff | packages/orchestrator/src/lifecycle-adapters.ts:113-118 | what the resource's answer to an early cancel leads to, and what the launch then resolves with |
| FullSessionLaunch.RejectionsAreRethrown | packages/orchestrator/src/lifecycle-adapters.ts:124-127 | every rejection makes the launch throw, after stopping a resource that was not handed over |
| FullSessionLaunch.CallsReach | packages/orchestrator/src/lifecycle-adapters.ts:132-145 | stop and cancel reach a resource that is there, cancel only one that can cancel |
| FullSessionLaunch.StepKeeps | packages/orchestrator/src/lifecycle-adapters.ts:98-130 | each stretch of the launch coroutine keeps its invariant |
| FullSessionObjects.Operation.OnResource | packages/orchestrator/src/lifecycle-adapters.ts:106-123 | from the resource's arrival to the next await |
| FullSessionObjects.Operation.Resume | packages/orchestrator/src/lifecycle-adapters.ts:102-130 | whatever settles next, the coroutine makes the step of the launch machine, and ignores what it is not waiting for |
| FullSessionObjects.Operation.OnResourceEnds | packages/orchestrator/src/lifecycle-adapters.ts:123-123 | the resource ends on its own |
| FullSessionObjects.Operation.CatchError | packages/orchestrator/src/lifecycle-adapters.ts:124-127 | the catch clause stops a resource that was not handed off |
| FullSessionObjects.Adapter.BeginLaunch | packages/orchestrator/src/lifecycle-adapters.ts:102-104 | registers a new operation under the instance id: the table's Launch move |
| FullSessionObjects.Adapter.Continue | packages/orchestrator/src/lifecycle-adapters.ts:105-129 | one step of a launch and, when it settles, the finally clause: the table's Advance move, which may delete another launch's entry |
| FullSessionObjects.Adapter.StopInstance | packages/orchestrator/src/lifecycle-adapters.ts:140-145 | marks the operation found under the id and stops its resource: the table's StopCall move, so that the theorems on leaks and early stops apply |
| FullSessionObjects.Adapter.CancelInstance | packages/orchestrator/src/lifecycle-adapters.ts:132-138 | the table's CancelCall move; true iff an operation is found and has no resource yet or its resource accepts |
| ChunkText.Body | packages/coding-agent/src/recode-telegram-gateway.ts:931-933 | the text that is split is never empty and never ends in a blank |
| ChunkText.BodyOfText | packages/coding-agent/src/recode-telegram-gateway.ts:931-933 | the text that is split is the given one without leading and trailing blanks, or the fallback sentence when nothing else is left |
| ChunkText.Boundary | packages/coding-agent/src/recode-telegram-gateway.ts:935-937 | the last newline of the upper half of the window, else its last space, else the limit |
| ChunkText.Chunk | packages/coding-agent/src/recode-telegram-gateway.ts:931-943 | terminates with chunks of 1 to 3900 characters, each cut the best one, whose concatenation is the trimmed text minus blanks at the cuts; the trimmed text is the given one minus blanks at its ends |

## Left out

- Object identity of leases and tokens: `TurnLeaseRegistry` names them by number, with one map per field; aliasing is captured by equal numbers, garbage collection is not.
- TurnLeaseRegistry.SessionTurnLeaseRegistry.Release: a token that a promise has not resolved with yet cannot be passed, as callers have no access to it.
- TurnLeaseRegistry.SessionTurnLeaseRegistry.Rebind: the same restriction; for an object that imitates a token and names an overlong id the source throws, while the model refuses it.
- prepareNextTurn replacing the model or the thinking level: neither shows in transcripts or events.
- LoopRuns.AgreementIff: is about runs whose context prepareNextTurn keeps; with a replaced context the condition of `LoopRuns.TranscriptsAgree` takes its place.
- prepareToolCall, argument validation, beforeToolCall and afterToolCall: their joint outcome per call is an arbitrary answer of the environment.
- Tools that never settle: a batch with such a tool never ends in the source, and the models are about the runs that go on.
- Thrown errors of hooks, provider and listeners in the agent loop.
- AgentObject.Agent.RunWithLifecycle: reduces the run's events after the run instead of one by one; listeners are not modelled, and of the runs that throw only those whose budget cannot be created are.
- AgentLoop.AgentRun.RunAgentLoop: others may have used the budget before the run, but not during it.
- Queue clears and reset(): conservation is stated without them.
- Lifecycle progress snapshots, updatedAt, subscribers, attach and detach, wait, status and result queries, the answer objects of cancel and setWaitingInput, and the worker adapter: easy members or observers only.
- Validation of launch requests other than of identities, and of runtime identities: an uninterpreted flag.
- LifecycleRecord.Record.HandOff: the digest of the result is an argument rather than computed.
- CompletionQueue.MaestroCompletionQueue.EnqueueCompletion: a load or save that throws is not modelled, and terminal states outside the four supported ones are excluded by their type.
- RpcProcess.RpcProcessInstance.Send: best-effort abort writes touch no bookkeeping and are left out; a write of a string reports errors through its callback only; the identity generated when the caller gives none is an argument; RPC cancel() is a further send.
- The event mapping of the streaming proxy (processProxyEvent) and its abort checks: `ProxyReader` stops at payload texts.
- PublicationChain.PublicationOrder: a store operation is assumed to take effect only before it settles.
- ModelsRefresh.ModelsImpl.QueuePublication: raceWithAbortSignal, which only affects what the caller awaits, is left out; so are the refresh phases, credentials and login.
- Process ownership receipts of the native service: their read and rename are separate file operations, so cross-process exclusion is no theorem of a step model.
- Terminal UI, network clients, catalog scraping, file formats and process spawning.
