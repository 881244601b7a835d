# Tantra, verified

Tantra is a durable actor runtime: every actor has an append-only journal, a leased and fenced
owner, idempotent commands, cancellation and crash recovery. This project models its hardest
parts in Dafny 4.11 and proves what they promise. `dafny verify dfyconfig.toml` checks it all.

The modules, from the database up:

- `Basics`, `Journal`, `Coordinator`, `Leases`, `Dispatch`: journals and their reduction; one root's
  rows, leases, transactions and requests as a state machine whose clock may move between any two
  steps, also inside an open transaction; the request dispatchers.
- `Commands`, `Outcomes`, `Recovery`: sends, deliveries, answers and cancels with their retries and
  the writer token, and what exactly becomes of each; what recovery appends, and the runtime's own
  loops proved against it.
- `TurnProtocol`, `TurnSafety`, `TurnRuns`, `TurnHazards`, `TurnCancels`, `TurnOrder`, `TurnWrites`,
  `RuntimeTables`: any number of processes that acquire, recover, claim and run turns, cancel, lose
  leases, close and crash. A world holds the database and each process's memory (cached ownership,
  turn generations, active drains, drains that are still unwinding); a body under the process lock
  is taken, begun, fence-checked, committed and returned in separate moves. Drains read what is
  committed before it takes effect in memory, a process may close at any point, and a commit may
  stand although the process is told that it failed.
- `History`, `Assembly`, `Transcript`, `Pairs`, `Pairing`, `Samples`, `TurnLoop`, `NextRequest`,
  `Compaction`, `Stream`: from journal to model request. The trimmed history, message assembly with
  its in-place patching, the pair checker, the sampling step that creates the events, compaction
  under a token budget, and the batching of provider deltas.
- `Schema`, `Inliner`, `Unfolding`, `Portable`, `Hoist`, `RootSchema`: the JSON-schema inliner, what
  a schema means as the tree of its expansions, the types taken from branches, and the whole
  transformation of any schema, one that is itself a reference included.
- `Pages`, `PageReader`, `Watcher`, `Cleanup`, `Outbox`: the committed page cache and its readers,
  tree watchers, tree collection and paging for cleanup, and the ACP client's per-session outbox.

Code that mutates state step by step is a class or a method with loops, proved against a
specification function; protocols are state machines with theorems about every run.

## What turned out false, and exactly when it holds

- Turn safety. The protocol as written reaches a journal in which a turn is ended while its
  writer still appends, or is ended twice, in four ways. (1) A drain remembers its turn before it
  claims it, and its cancellation handler ends that turn without looking at the turn generation,
  so a drain aborted before its claim can end the turn of its successor
  (`TurnHazards.AbortedDrainBreaksTurn`). (2) A root stays marked as unrecovered when the step
  after recovery fails, and a later request recovers it again, which ends a turn this process is
  running (`TurnHazards.RepeatedRecoveryBreaksTurn`). (3) A cancel stops its drains only after its
  transaction has returned, so when the commit stands but its acknowledgement is lost, the engine
  of the turn it ended goes on (`TurnHazards.LostCancelBreaksTurn`). (4) The handler that fails a
  turn on a provider error also covers the hooks that are told of its end, so a hook that raises
  one ends the turn a second time (`TurnHazards.LateHookBreaksTurn`). Four guards rule these out:
  `TurnProtocol.Careful` asks, at a claim, that no aborted drain of the actor still names the
  claimed turn, at a recovery, that it would end no turn the process is still running, at a lost
  acknowledgement of a cancel, that the cancel ended no such turn, and at an engine's append, that
  its turn is not over. Every run that keeps the guards is safe (`TurnRuns.TurnsAreSafe`), and
  each guard is exact (`TurnRuns.ClaimGuardIsExact`, `TurnRuns.RecoveryGuardIsExact`,
  `TurnRuns.LostGuardIsExact`, `TurnRuns.LateGuardIsExact`).
- Exactly-once requests. Answered requests are swept 24 hours after completion, so a request can
  be applied twice if and only if its deadline lies further away than that
  (`Coordinator.AtMostOnceIsExact`).
- Trimmed histories. A compaction whose floor turn was started only in the dropped part makes
  the journal's window longer than the trimmed one: `History.RevivedFloorBreaksStep` gives such a
  history, and the condition is exact (`History.FloorConditionIsExact`). Only a compactor other
  than the source's own can produce it: the source's always names a floor in the current window
  (`Compaction.Compact`), and such a floor is at hand (`History.FloorKnownIsAtHand`).
- Schema inlining. A nested reference to a recursive definition is left in place with its siblings
  unwalked, so a definition that only such a sibling refers to is not kept: with `A` referring to
  itself with a reference to `B` beside it, `B` to itself and the schema to `A`, the result keeps
  `A` only and still refers to `B` (`Portable.LeavesDangling`). The result refers to nothing but
  what is kept if and only if every reference left in place, in the schema or in a definition the
  schema needs, has only references to needed definitions beside it, members that end up
  overridden aside (`Portable.Transform`, `Inliner.CleanIsExact`), where the needed definitions are
  the least recursive ones closed under use (`Portable.NeededIsLeast`); it does whenever references to recursive
  definitions carry no further references beside them (`Portable.BareIsWhole`).

## Model

| member | source | states |
|---|---|---|
| `Journal.RecoveryEndsProperties` | packages/tantra/src/tantra/runtime.py:1168-1193 | recovery ends each turn once, and exactly the live ones the root lists as cancelled and the open one |
| `Journal.PendingDistinct` | packages/tantra/src/tantra/testing.py:421-443 | in a well-formed journal no turn is queued twice |
| `Coordinator.StepKeepsInv` | packages/tantra/src/tantra/coordinator.py:1836-1847 | every coordinator step keeps the invariant that an open transaction's owner and generation are still those of the committed row, whatever the clock says |
| `Coordinator.CommitsAreFenced` | packages/tantra/src/tantra/coordinator.py:1313-1374 | in every run, committed transactions carry non-decreasing generations and one generation never commits for two instances |
| `Coordinator.OldOwnersNeverCommit` | packages/tantra/src/tantra/coordinator.py:364-420 | after an acquire no older generation ever commits again, even if its lease ran out between the last fence check and the commit |
| `Coordinator.AppliedAtMostOnce` | packages/tantra/src/tantra/coordinator.py:1192-1208 | a request with a deadline within the retention period is applied by at most one committed transaction, across owner changes, redirects, failures and sweeps |
| `Coordinator.LongDeadlineAppliesTwice` | packages/tantra/src/tantra/coordinator.py:806-834 | for every later deadline there is a run that applies the request twice |
| `Coordinator.AtMostOnceIsExact` | packages/tantra/src/tantra/coordinator.py:840-904 | no run applies a request twice if and only if its deadline lies within the retention period of the submission |
| `Coordinator.ReplyIsFinal` | packages/tantra/src/tantra/coordinator.py:1725-1762 | a reply, once committed, never changes while the row exists |
| `Coordinator.DeletionIsFinal` | packages/tantra/src/tantra/coordinator.py:1386-1419 | after a committed deletion no acquire, renew, release, transaction or submission succeeds for any ownership |
| `Coordinator.DeletionRetiresTheRow` | packages/tantra/src/tantra/coordinator.py:1409-1419 | a committed deletion clears the owner and burns a generation |
| `Leases.AcquireIsExact` | packages/tantra/src/tantra/coordinator.py:364-420 | a root can be acquired unless it is deleted or another instance holds it; a holder gets its own lease back, anyone else one that lasts exactly its time, under the next generation |
| `Leases.RenewIsExact` | packages/tantra/src/tantra/coordinator.py:422-461 | a renewed lease lasts exactly its time from now on, for the same instance and generation only |
| `Leases.ReleaseIsExact` | packages/tantra/src/tantra/coordinator.py:463-510 | after a release nobody holds the root, and the generation stands |
| `Leases.SubmissionIsExact` | packages/tantra/src/tantra/coordinator.py:840-904 | a submission adds or readdresses its own request and no other, and leaves an answered one alone |
| `Leases.TakenUpByItsOwner` | packages/tantra/src/tantra/coordinator.py:1725-1742 | the ownership a request was last addressed to can take it up, until its deadline and unless it was answered |
| `Leases.AnswerIsKept` | packages/tantra/src/tantra/coordinator.py:1744-1762 | in every run a transaction that answers its request and commits leaves that very reply, completed at the time it was given |
| `Leases.OnlyCommitsShow` | packages/tantra/src/tantra/coordinator.py:1313-1374 | what a transaction does is seen by nobody until its commit, which shows exactly its work; an abort leaves no trace |
| `Leases.DeletionIsCommitted` | packages/tantra/src/tantra/coordinator.py:1386-1419 | in every run a transaction that deletes the tree and commits leaves it deleted |
| `Leases.SweepIsExact` | packages/tantra/src/tantra/coordinator.py:806-834 | exactly the requests answered, or past their deadline, for more than 24 hours can be swept, one by one and not while being answered |
| `Dispatch.Dispatcher.Ask` | packages/tantra/src/tantra/coordinator.py:1210-1232 | a query is sent exactly with fewer than four dispatchers, and lists exactly the busy roots |
| `Dispatch.Dispatcher.Start` | packages/tantra/src/tantra/coordinator.py:1162-1172 | starting a dispatcher keeps at most four in all and one per root, though others may have ended since the query |
| `Dispatch.Dispatcher.Finish` | packages/tantra/src/tantra/coordinator.py:1174-1190 | a dispatcher that ends removes its own entry and no other |
| `Dispatch.Dispatcher.OnePerRoot` | packages/tantra/src/tantra/coordinator.py:1162-1190 | two running dispatchers never serve the same root |
| `Commands.CommandsJournaledOnce` | packages/tantra/src/tantra/runtime.py:2354-2518 | over every history of sends, deliveries, answers, cancels, internal inputs and retries a command id is journaled at most once in the whole tree |
| `Commands.RetriesAreDuplicates` | packages/tantra/src/tantra/runtime.py:2741-2771 | after a first acceptance every later success of the command id is a duplicate, and a repeated send, delivery or answer changes nothing |
| `Commands.ReplacedWriterAppliesNothing` | packages/tantra/src/tantra/coordinator.py:1652-1690 | a command with a writer token that was replaced is refused and changes nothing, until that connection claims again |
| `Commands.AcceptedCancelIsRecorded` | packages/tantra/src/tantra/runtime.py:2847-2953 | an accepted cancel leaves a record of its targets in the root journal |
| `Commands.RetriedCancelEndsOnlyRecordedTurns` | packages/tantra/src/tantra/runtime.py:2868-2947 | a retry of a cancel, however late, appends to each actor exactly one end for each recorded turn that is still live there, in the recorded order |
| `Commands.CancelTargetsDistinct` | packages/tantra/src/tantra/runtime.py:2594-2604 | no actor is given the same turn twice as a cancel target |
| `Commands.StepOnce` | packages/tantra/src/tantra/coordinator.py:1578-1614 | every single action keeps command ids unique in the tree |
| `Outcomes.SendIsExact` | packages/tantra/src/tantra/runtime.py:2403-2425 | each outcome of a send exactly when it is due; an accepted first one adds the user's input, last, to the root's journal, and no other changes anything |
| `Outcomes.DeliverIsExact` | packages/tantra/src/tantra/runtime.py:2374-2393 | the same for a delivery to its target, which needs no writer |
| `Outcomes.QueuedLast` | packages/tantra/src/tantra/testing.py:421-443 | an input queued last waits behind all others |
| `Outcomes.CancelIsExact` | packages/tantra/src/tantra/runtime.py:2467-2502 | each outcome of a cancel exactly when it is due; the first time its targets are exactly what is open or waits, in the tree or of users in the root, and every time exactly the listed turns still live are ended, after the record the first time |
| `Outcomes.CancelSilences` | packages/tantra/src/tantra/runtime.py:2594-2604 | after a first cancel with descendants no unfinished actor has anything open or waiting |
| `Outcomes.RootCancelKeeps` | packages/tantra/src/tantra/runtime.py:2594-2604 | a first cancel of the root alone leaves nothing open there, no user's input waiting, and all other inputs waiting |
| `Outcomes.RootCancelSpares` | packages/tantra/src/tantra/runtime.py:2594-2604 | a first cancel of the root alone touches no other actor |
| `Outcomes.AnswerIsExact` | packages/tantra/src/tantra/runtime.py:2427-2466 | each outcome of an answer exactly when it is due; an accepted first one is journaled by the asking actor and settles its question |
| `Outcomes.ClaimHolds` | packages/tantra/src/tantra/coordinator.py:1652-1690 | a writer stays the writer until another connection claims or it lets go itself |
| `Outcomes.InternalIsExact` | packages/tantra/src/tantra/coordinator.py:1578-1614 | an input the runtime makes is queued last, once, unless its actor has the command |
| `Recovery.RecoveredActor` | packages/tantra/src/tantra/runtime.py:1168-1193 | recovery leaves no open turn, newly ends exactly the open turn and the live turns the root lists as cancelled, and keeps the other pending inputs in order |
| `Recovery.RecoveryIsIdempotent` | packages/tantra/src/tantra/runtime.py:1168-1193 | recovery run again appends nothing |
| `Recovery.PendingAfterEnds` | packages/tantra/src/tantra/testing.py:421-443 | ending turns removes exactly their inputs from the queue and keeps the rest in order |
| `Recovery.CoordinatedTree.ReduceCancellations` | packages/tantra/src/tantra/runtime.py:1049-1065 | the loop computes, for every actor, the cancelled turns in first-listed order without repeats |
| `Recovery.CoordinatedTree.Recover` | packages/tantra/src/tantra/runtime.py:1168-1193 | the loop over the headers produces exactly the recovered journals |
| `Recovery.CoordinatedTree.OperationalTargets` | packages/tantra/src/tantra/runtime.py:2594-2604 | the loop collects the live turns of each listed actor that has any |
| `TurnSafety.MoveKeepsInvariant` | packages/tantra/src/tantra/runtime.py:2083-2182 | every guarded move of every process keeps the invariant: one live drain per actor under the current generation, its claimed turn not ended, and every journal well formed |
| `TurnSafety.TakeMove` | packages/tantra/src/tantra/runtime.py:1026-1036 | taking a body under the process lock keeps it, whether under the process's own ownership or, for a request, under the row's |
| `TurnSafety.SettleClaim` | packages/tantra/src/tantra/runtime.py:2129-2147 | a claim, successful or not, keeps it |
| `TurnSafety.CommitMove` | packages/tantra/src/tantra/coordinator.py:1313-1374 | a commit keeps it while its process has not been told: the engine it serves is one step behind its journal, and drains whose turn a cancel ended still run |
| `TurnSafety.EngineFollows` | packages/tantra/src/tantra/runtime.py:1026-1036 | an engine append that passed its generation check brings the journal to the engine's next stage, and concerns no other drain that is live or about to claim |
| `TurnSafety.InterruptSpares` | packages/tantra/src/tantra/runtime.py:1786-1797 | ending an incomplete turn from a drain ends no turn whose engine may still append |
| `TurnSafety.ReturnMove` | packages/tantra/src/tantra/runtime.py:2519-2533 | the return of a committed body keeps it, whatever the drains read since the commit |
| `TurnSafety.CancelReturns` | packages/tantra/src/tantra/runtime.py:2611-2623 | when a cancel returns, every drain whose turn its commit ended is stopped, and the others are as their journals say |
| `TurnSafety.LostMove` | packages/tantra/src/tantra/coordinator.py:1362-1373 | a commit that stands although an error is raised keeps it: the waiting drain fails or unwinds, and a cancel needs care |
| `TurnSafety.InvalidateMove` | packages/tantra/src/tantra/runtime.py:527-539 | losing the lease keeps it |
| `TurnSafety.CloseMove` | packages/tantra/src/tantra/runtime.py:3134-3163 | stopping every drain of a closing process keeps it at any point, also while a drain's own body holds the process lock |
| `TurnSafety.ContinueMove` | packages/tantra/src/tantra/runtime.py:2178-2182 | a drain that goes on to its next turn keeps it |
| `TurnRuns.TurnsAreSafe` | packages/tantra/src/tantra/runtime.py:2083-2182 | in every guarded run of any processes, with lost acknowledgements, drains that read between a commit and its effects, requests served after an ownership was dropped, and closing processes, each turn is started at most once and ended at most once, and no engine output of a turn follows its end |
| `TurnRuns.ClaimGuardIsExact` | packages/tantra/src/tantra/runtime.py:2129-2200 | a claim leads to no broken journal in any guarded future if and only if no aborted drain of the actor still names the turn |
| `TurnRuns.RecoveryGuardIsExact` | packages/tantra/src/tantra/runtime.py:485-509 | a recovery leads to no broken journal in any guarded future if and only if it ends no turn this process is running |
| `TurnRuns.LostGuardIsExact` | packages/tantra/src/tantra/runtime.py:2611-2623 | a cancel whose acknowledgement is lost leads to no broken journal in any guarded future if and only if it ended no turn this process is running |
| `TurnRuns.LateGuardIsExact` | packages/tantra/src/tantra/loop.py:259-266 | an engine's append leads to no broken journal in any guarded future if and only if its turn is not over |
| `TurnOrder.InputsRunInOrder` | packages/tantra/src/tantra/runtime.py:2083-2147 | in every guarded run, whenever a turn starts, its input was queued and every input queued before it in that actor had started or ended |
| `TurnCancels.CancelStopsItsRecord` | packages/tantra/src/tantra/runtime.py:2611-2623 | in every guarded run a cancel that returns, however late, stops exactly the active drains of the actors its record lists that claimed a listed turn, or none yet |
| `TurnCancels.UnlistedTurnGoesOn` | packages/tantra/src/tantra/runtime.py:2611-2623 | a drain that runs a turn the record does not list goes on unchanged |
| `TurnCancels.ActorsCancelStopsThem` | packages/tantra/src/tantra/runtime.py:2029-2060 | a cancel of some actors stops a drain exactly if its actor is among them, something was live there, and the drain has claimed that or nothing |
| `TurnSafety.CancelIsExact` | packages/tantra/src/tantra/runtime.py:2611-2623 | a drain with a targeted claim or none gets the next generation, loses its slot and is cancelled; every other drain, generation and field is untouched |
| `TurnWrites.ActorsCancelWrites` | packages/tantra/src/tantra/runtime.py:2029-2060 | a cancel of some actors leaves nothing open or waiting in those that are not finished, and writes to no other |
| `TurnWrites.CancelWrites` | packages/tantra/src/tantra/runtime.py:2467-2502 | a cancel inside the protocol writes what the root's cancel command writes |
| `TurnWrites.RecoveryWrites` | packages/tantra/src/tantra/runtime.py:1168-1193 | recovery inside the protocol leaves the recovered journals |
| `TurnWrites.ShutWrites` | packages/tantra/src/tantra/runtime.py:3134-3163 | closing ends the open turn of each actor, and writes nothing else |
| `TurnWrites.InterruptWrites` | packages/tantra/src/tantra/runtime.py:1786-1797 | an interrupt ends its turn if it is open, and writes nothing else |
| `TurnWrites.OtherWrites` | packages/tantra/src/tantra/runtime.py:1026-1036 | an engine's entries go to its own actor, an input is queued last unless the actor has one of its id, and a claim writes nothing |
| `TurnWrites.ObservedIsExact` | packages/tantra/src/tantra/runtime.py:2083-2130 | a drain that reads its journal interrupts the open turn, else prepares the first input that waits, else ends and gives up its slot |
| `TurnWrites.ClaimIsExact` | packages/tantra/src/tantra/runtime.py:2129-2147 | a claim of a turn that still waits starts its engine under the actor's next generation; any other sends the drain back to its loop |
| `TurnWrites.EngineReturns` | packages/tantra/src/tantra/runtime.py:1026-1036 | once its entries are appended an engine is running, or over if they end its turn, and nothing else changes |
| `TurnWrites.InterruptReturns` | packages/tantra/src/tantra/runtime.py:2105-2115 | after an interrupt a drain goes on, stays to unwind if it was aborted meanwhile, and ends if it was unwinding |
| `TurnWrites.UnwoundIsExact` | packages/tantra/src/tantra/runtime.py:2183-2200 | an aborted drain turns to the turn it remembers, or ends and gives up its own slot only |
| `TurnWrites.LossIsExact` | packages/tantra/src/tantra/coordinator.py:1362-1373 | when an acknowledgement is lost, a drain that waited for a start, an end or an interrupt ends, or stays to unwind if it was aborted, and nobody else notices |
| `TurnWrites.RecoveryReturns` | packages/tantra/src/tantra/runtime.py:485-509 | the mark that asks for recovery is cleared exactly when the follow-up succeeds |
| `TurnWrites.OwningIsAcquiring` | packages/tantra/src/tantra/runtime.py:485-509 | taking an ownership is the coordinator's acquire, and marks the root as unrecovered |
| `TurnWrites.ExtendingIsRenewing` | packages/tantra/src/tantra/coordinator.py:422-461 | extending an ownership is the coordinator's renewal, and changes nothing else |
| `TurnWrites.LettingGoIsReleasing` | packages/tantra/src/tantra/coordinator.py:463-510 | giving up an ownership is the coordinator's release, and the process forgets it |
| `TurnHazards.AbortedDrainBreaksTurn` | packages/tantra/src/tantra/runtime.py:2183-2200 | a run of the unguarded protocol in which an aborted drain ends its successor's running turn |
| `TurnHazards.RepeatedRecoveryBreaksTurn` | packages/tantra/src/tantra/runtime.py:2329-2336 | a run of the unguarded protocol in which a repeated recovery ends a running turn |
| `TurnHazards.LostCancelBreaksTurn` | packages/tantra/src/tantra/runtime.py:2530-2533 | a run of the unguarded protocol in which a cancel stands, its acknowledgement is lost, and the ended turn goes on writing |
| `TurnHazards.LateHookBreaksTurn` | packages/tantra/src/tantra/loop.py:849-852 | a run of the unguarded protocol in which a hook raises after the end of a turn and the turn is ended again |
| `RuntimeTables.Runtime.CancelLocal` | packages/tantra/src/tantra/runtime.py:2611-2623 | over the fields: a listed drain whose claimed turn is targeted, or that has claimed none, gets the next generation, loses its slot and is cancelled; every other slot, generation and task, and every other field, is untouched |
| `RuntimeTables.Runtime.InvalidateRoot` | packages/tantra/src/tantra/runtime.py:527-539 | over the fields: every active drain is stopped that way and no other, and the ownership is forgotten |
| `RuntimeTables.Runtime.Close` | packages/tantra/src/tantra/runtime.py:3134-3140 | over the fields: every active drain is stopped that way and no other, and the ownership is kept |
| `RuntimeTables.Runtime.StopDrain` | packages/tantra/src/tantra/runtime.py:2611-2623 | stopping one drain advances its actor's generation and cancels its task only |
| `History.CompactionWindow` | packages/tantra/src/tantra/context.py:72-87 | the two scans find the last compaction and the first start of its floor turn |
| `History.CompactedHistory` | packages/tantra/src/tantra/context.py:90-98 | the kept history is the suffix from the compaction or its floor, whichever is first |
| `History.WindowIs` | packages/tantra/src/tantra/context.py:72-98 | the window begins with the first start of the last compaction's floor turn, or just after that compaction, or is everything; what is kept begins there or at the compaction |
| `History.ForgetKeepsWindow` | packages/tantra/src/tantra/context.py:72-98 | dropping a prefix without the last compaction and without its floor turn changes no window |
| `History.TrimIsIdempotent` | packages/tantra/src/tantra/loop.py:180-182 | trimming a trimmed history changes nothing |
| `History.FloorConditionIsExact` | packages/tantra/src/tantra/loop.py:226-251 | an appended compaction keeps the trimmed window equal to the journal's if and only if its floor turn is not started in the dropped part alone |
| `History.RevivedFloorBreaksStep` | packages/tantra/src/tantra/loop.py:226-251 | a compaction that names a turn started in the dropped part alone puts the trimmed window out of step with the journal's |
| `History.FloorKnownIsAtHand` | packages/tantra/src/tantra/context.py:72-98 | with distinct turn ids, a floor in the current window is never in the dropped part, however the journal was cut |
| `History.HeardWindow` | packages/tantra/src/tantra/context.py:72-87 | events that reach no request move no window: without them the window is the same, less those events |
| `History.SameHeardSameView` | packages/tantra/src/tantra/loop.py:226-251 | journals that differ only in such events give the same summary and the same events to assemble |
| `History.TurnHistory.constructor` | packages/tantra/src/tantra/loop.py:180-182 | a loaded history is cut to its fixpoint and has the journal's window |
| `History.TurnHistory.Append` | packages/tantra/src/tantra/loop.py:226-251 | after every append the trimmed history gives the view of the whole journal, the events other writers journaled in between included |
| `History.TurnHistory.Absorb` | packages/tantra/src/tantra/loop.py:184-193 | catching up page by page keeps the views equal |
| `Assembly.AssembleMessages` | packages/tantra/src/tantra/context.py:101-150 | the loop with its dictionaries of messages patched in place computes the fold over drafts |
| `Assembly.SameViewSameRequest` | packages/tantra/src/tantra/context.py:153-155 | histories with the same view build the same request |
| `Transcript.AssembledIsTranscribed` | packages/tantra/src/tantra/context.py:101-150 | the messages are exactly these: the summary, the inputs of starts and the cancellation notes in order, and for each sample, where its first part came, its concatenated text, its reasoning and its answered calls, followed by their results |
| `Transcript.AnswerIsLast` | packages/tantra/src/tantra/context.py:132-142 | a call's answer is that of its last completion after its request, if there is one |
| `Transcript.ResultIsTheLast` | packages/tantra/src/tantra/context.py:132-142 | every tool result of a request carries the text and error flag of the call's last completion after its request |
| `Transcript.ResultIsThere` | packages/tantra/src/tantra/context.py:132-142 | and every call completed after its request has that result in the request |
| `Assembly.Patch` | packages/tantra/src/tantra/context.py:108-114 | patching a sample's message changes that message only, creating it once |
| `Pairs.CheckRequest` | stress/invariants.py:53-81 | the checking loop computes the pair count, or the rejection |
| `Pairs.ShapedIsAccepted` | stress/invariants.py:53-81 | drafts in which replies follow their assistant message are accepted whichever calls are completed, with one pair for each completed call |
| `Pairing.CheckerIsExact` | stress/invariants.py:53-81 | a request passes, with one pair per result, if and only if no result comes first or after a user's message, the results right after each assistant message are for exactly its calls, and no call appears in two of them |
| `Samples.JournalFollows` | packages/tantra/src/tantra/context.py:101-150 | the drafts of a journal of whole sample blocks list its calls in order and mark exactly those the journal completes |
| `Samples.AssembledIsAccepted` | packages/tantra/src/tantra/context.py:101-150 | messages assembled from whole blocks with distinct call ids pass the checker, with one pair for each call completed after its request |
| `Samples.BuildIsAccepted` | packages/tantra/src/tantra/context.py:153-155 | so do messages built through any compaction window, which always begins between whole blocks |
| `TurnLoop.FreshId` | packages/tantra/src/tantra/loop.py:417-429 | the renaming loop ends: a call keeps an id that is free, and else gets the first hashed one that is |
| `TurnLoop.TurnEngine.UniqueCalls` | packages/tantra/src/tantra/loop.py:417-429 | all ids come out new and pairwise different, each the call's own unless that is in use, earlier calls of the answer included; names and arguments are unchanged |
| `TurnLoop.Parts` | packages/tantra/src/tantra/loop.py:431-472 | the events are one whole block, its completion, and a start and error completion with its reason for each malformed call |
| `TurnLoop.TurnEngine.Settle` | packages/tantra/src/tantra/loop.py:509-619 | each call is left to run or completed on the spot with what its ruling calls for: the submitted value without error, every refusal as an error with its reason |
| `TurnLoop.TurnEngine.Preflight` | packages/tantra/src/tantra/loop.py:509-619 | every call is rejected, prepared or completed on the spot, with its own outcome, exactly once; the prepared ones are exactly those that may run, and the output is the first valid submission |
| `TurnLoop.TurnEngine.RunTools` | packages/tantra/src/tantra/loop.py:621-695 | under any schedule each prepared call is started once and completed with the text and error flag it first finishes with, nothing happens to any other call, and it ends well exactly if all of them finish |
| `TurnLoop.TurnEngine.Batch` | packages/tantra/src/tantra/loop.py:672-695 | the completion of each call carries its own outcome: its tool's first finish, or what its ruling calls for; it ends well exactly if every tool that ran finishes |
| `TurnLoop.TurnEngine.constructor` | packages/tantra/src/tantra/loop.py:151-152 | an engine begins with the trimmed history, which is made of whole blocks |
| `TurnLoop.TurnEngine.SeedCallIds` | packages/tantra/src/tantra/loop.py:815-817 | the ids in use at the start of a turn are exactly those its history requests |
| `TurnLoop.TurnEngine.Trim` | packages/tantra/src/tantra/loop.py:180-182 | trimming keeps whole blocks and the window, and brings in no call and no sample |
| `TurnLoop.TurnEngine.Append` | packages/tantra/src/tantra/loop.py:226-251 | appended events extend the history, a compaction among them trims it, and the window is that of the untrimmed one |
| `TurnLoop.TurnEngine.Step` | packages/tantra/src/tantra/loop.py:743-809 | a whole sample keeps the journal made of whole blocks, records the answer as it came but for clashing call ids, and gives every call, malformed ones included, one start and one completion with its own outcome |
| `TurnLoop.TurnEngine.RequestIsAccepted` | stress/invariants.py:53-81 | every request built from the engine's history, trimmed or not, passes the checker |
| `NextRequest.NextRequestAnswers` | packages/tantra/src/tantra/loop.py:743-809 | after a step the next request holds, for every call of the sample with a completion, the result with exactly the text and error flag that call's outcome has |
| `TurnLoop.FinishIsFirst` | packages/tantra/src/tantra/loop.py:621-671 | what a tool finishes with is the first ending of its call in the schedule |
| `TurnLoop.SubmissionIsFirst` | packages/tantra/src/tantra/loop.py:509-619 | the output is that of the first call that submits a valid one |
| `Compaction.UsableLeavesRoom` | packages/tantra/src/tantra/compaction.py:71-74 | the budget leaves room for the output and the buffer and is at most the trigger share |
| `Compaction.UsableIsMost` | packages/tantra/src/tantra/compaction.py:71-74 | no larger budget leaves that room and stays within the trigger share |
| `Compaction.ScanTurns` | packages/tantra/src/tantra/compaction.py:150-164 | the loops over preferred and other turns are one backward scan, whatever the number of tail turns |
| `Compaction.TailStart` | packages/tantra/src/tantra/compaction.py:150-164 | whatever the number of tail turns, the loops find the longest tail of turns within the budget |
| `Compaction.ScanIsLongest` | packages/tantra/src/tantra/compaction.py:150-164 | every turn of the tail but the current one fitted the budget, and the turn before the tail did not |
| `Compaction.TailIsLongest` | packages/tantra/src/tantra/compaction.py:150-164 | the tail is the last turn, extended back turn by turn while it stays within the budget |
| `Compaction.Boundary` | packages/tantra/src/tantra/compaction.py:219-223 | the window is cut where the tail begins, or at its second turn if it must shrink and nothing would be cut |
| `Compaction.PickStubs` | packages/tantra/src/tantra/compaction.py:279-287 | the stubs are those of the newest candidates, as few as bring the estimate to the target |
| `Compaction.NamesAre` | packages/tantra/src/tantra/compaction.py:205-206 | a call's tool is the one of its last request |
| `Compaction.Prune` | packages/tantra/src/tantra/compaction.py:251-287 | stubs replace only long, latest, named, unpruned results of tools other than the skill tool, the newest first, as few as reach the target, and none unless pruning is worth it |
| `Compaction.PrunesOneWay` | packages/tantra/src/tantra/compaction.py:251-287 | what pruning is asked for leaves no choice of stubs |
| `Compaction.PrunedOnce` | packages/tantra/src/tantra/compaction.py:263-272 | a pruned result is never a candidate again |
| `Compaction.TailMessages` | packages/tantra/src/tantra/compaction.py:235-249 | the recorded stubs assemble to the same messages as all stubs |
| `Compaction.SummaryWindow` | packages/tantra/src/tantra/context.py:72-87 | a recorded summary makes its floor turn the start of the new window |
| `Compaction.Compact` | packages/tantra/src/tantra/compaction.py:185-249 | it returns nothing exactly if it is not forced and the estimate is below the trigger; else it raises exactly if what cannot be cut is too large, there is no summary, or the result is not below the trigger, and otherwise returns exactly the stubs that suffice or the summary; the request rebuilt from what it returns is below the trigger, holds the current turn, and the floor is in the current window |
| `Stream.StreamEvents` | packages/tantra/src/tantra/loop.py:267-347 | for every stream and timing the outputs are the deltas and ends in order, every batch is non-empty, has at most 32 deltas and fits the byte limit unless it is a single delta; at every moment what arrived is out or held back, nothing is held back past its time or full, and no batch goes out before it is due or full |
| `Schema.CloseIsLeast` | packages/tantra/src/tantra/tools.py:151-164 | reachability is the least set closed under references |
| `Schema.Reachable` | packages/tantra/src/tantra/tools.py:154-162 | the worklist ends and finds exactly the reachable definitions |
| `Schema.RecursiveDefs` | packages/tantra/src/tantra/tools.py:151-164 | exactly the definitions that reach themselves |
| `Schema.ReachShrinks` | packages/tantra/src/tantra/tools.py:113-129 | following a reference to a definition that is not recursive strictly shrinks what is reachable, which is why inlining ends |
| `Inliner.UsedAreRecursive` | packages/tantra/src/tantra/tools.py:119-124 | the walk keeps recursive definitions only |
| `Inliner.CleanIsExact` | packages/tantra/src/tantra/tools.py:113-129 | what a walked schema refers to is kept if and only if every reference the walk left in place has only kept references beside it, overridden members aside |
| `Inliner.BareIsClean` | packages/tantra/src/tantra/tools.py:119-124 | with no further references beside references to recursive definitions, every reference left in place is clean |
| `Inliner.DiscriminatorsDropped` | packages/tantra/src/tantra/tools.py:113-129 | of parts without references exactly the discriminators beside a `oneOf` are dropped, and a part without such is unchanged |
| `Unfolding.InliningPreserves` | packages/tantra/src/tantra/tools.py:113-138 | if references left in place are clean, the inlined schema unfolds at every budget of recursive expansions to the tree of the original, dropped discriminators aside |
| `Unfolding.OverlayMeaning` | packages/tantra/src/tantra/tools.py:125-126 | a target overlaid with siblings unfolds to the target's tree with the siblings over it |
| `Portable.Walker.Visit` | packages/tantra/src/tantra/tools.py:113-129 | the recursive walk ends, computes the inlined node, and adds exactly the used names to the kept list, each once |
| `Portable.NeededIsLeast` | packages/tantra/src/tantra/tools.py:130-137 | the needed definitions of a schema are the least recursive ones closed under use |
| `Portable.Transform` | packages/tantra/src/tantra/tools.py:110-137 | exactly the needed definitions are kept, walked; the result is whole if and only if the references left in place in the schema and in those are clean, and then unfolds like the schema at every budget |
| `Portable.LeavesDangling` | packages/tantra/src/tantra/tools.py:119-124 | for the mixed definitions, the result refers to a definition that is not kept |
| `Portable.TransformMixed` | packages/tantra/src/tantra/tools.py:110-137 | the transformation accepts that schema and returns a result that is not whole |
| `Portable.BareIsWhole` | packages/tantra/src/tantra/tools.py:113-137 | without further references beside references to recursive definitions every result is whole |
| `Hoist.BranchTypeIsAgreed` | packages/tantra/src/tantra/tools.py:172-180 | a node without a type is given one exactly if its branches agree on it, null branches beside a default aside |
| `Hoist.HoistedIsDue` | packages/tantra/src/tantra/tools.py:167-180 | at every object of the result the type is the node's own, or the one its result's branches agree on, nulls beside a default aside, and absent if they do not |
| `Hoist.OneWayDue` | packages/tantra/src/tantra/tools.py:167-180 | no other result has these types |
| `Hoist.OnlyTypesAdded` | packages/tantra/src/tantra/tools.py:167-180 | at every depth at most a `type` is added and nothing is changed or lost |
| `Hoist.HoistedRefs` | packages/tantra/src/tantra/tools.py:167-180 | no reference is added or lost |
| `Hoist.HoistedTwice` | packages/tantra/src/tantra/tools.py:167-180 | a second pass changes nothing |
| `RootSchema.MeaningGrows` | packages/tantra/src/tantra/tools.py:113-138 | a larger budget expands a schema further and changes nothing that was expanded |
| `RootSchema.RootMeans` | packages/tantra/src/tantra/tools.py:107-109 | replacing a root reference changes no meaning unless the root is recursive, and then expands it between one budget and the next |
| `RootSchema.PortableSchema` | packages/tantra/src/tantra/tools.py:104-138 | from any schema, root references included: the result and its definitions are those inlined and given branch types; it is whole exactly if references left in place are clean, and then, branch types aside, expands the original as far as every budget asks, never further, and exactly unless the root is recursive |
| `Pages.AddItems` | packages/tantra/src/tantra/_pages.py:115-129 | an entry stays a contiguous block of the journal within its bounds, and never pops from an empty entry |
| `Pages.NewestKept` | packages/tantra/src/tantra/_pages.py:115-129 | a new item is the newest kept unless it is too large to keep |
| `Pages.AddedIsExact` | packages/tantra/src/tantra/_pages.py:115-129 | an item already passed changes nothing, one too large empties the entry, and any other is kept with as many of the items just before it as the bounds allow, none from before a gap |
| `Pages.CommittedPages.Publish` | packages/tantra/src/tantra/_pages.py:108-133 | the entry becomes the merged one, most recently used, or goes if empty; then exactly the least recently used entries go that do not fit; a publish without a live reader changes nothing |
| `Pages.CommittedPages.Evict` | packages/tantra/src/tantra/_pages.py:130-133 | exactly the least recently used entries go that do not fit, and never the one just stored |
| `Pages.CommittedPages.Lookup` | packages/tantra/src/tantra/_pages.py:135-140 | a hit is all that is cached past the cursor, and becomes the most recently used |
| `Pages.CommittedPages.Serve` | packages/tantra/src/tantra/_pages.py:179-183 | what a reader takes from a shared fetch is all of it past its own cursor; it goes another round exactly if the fetch does not reach its cursor |
| `PageReader.Page` | packages/tantra/src/tantra/_pages.py:148-184 | whatever others do meanwhile, a reader is served a journal block just after its cursor: all that is cached, or what the store held when it asked, up to a page; far behind, straight from the store; a deleted actor is not found and a closed cache gives nothing; it waits only behind flights of others |
| `Pages.CommittedPages.Fetched` | packages/tantra/src/tantra/_pages.py:142-146 | a fetched page is published only for the registration that asked for it |
| `Pages.CommittedPages.Release` | packages/tantra/src/tantra/_pages.py:95-106 | one reader less; the last one takes the registration and the cached pages with it, and nothing else changes |
| `Pages.CommittedPages.Invalidate` | packages/tantra/src/tantra/_pages.py:89-93 | a deleted actor is no longer cached and stays marked |
| `Pages.CommittedPages.Retain` | packages/tantra/src/tantra/_pages.py:63-68 | a reader is registered or counted, on a closed cache too; others and the cache are unchanged |
| `Pages.CommittedPages.Close` | packages/tantra/src/tantra/_pages.py:186-194 | a closed cache holds nothing |
| `Watcher.NoNoticeIsLost` | packages/tantra/src/tantra/runtime.py:1541-1585 | in every run a watcher that is blocked last saw a snapshot of the current generation, which shows every announced change, whatever a read shows of the changes made while it ran |
| `Watcher.StepKeepsInv` | packages/tantra/src/tantra/runtime.py:752-757 | every change, notice, read and wake keeps the invariant behind it |
| `Watcher.NoticeWakesAll` | packages/tantra/src/tantra/runtime.py:752-757 | a notice lets every blocked watcher go on |
| `Watcher.LockIsHeld` | packages/tantra/src/tantra/runtime.py:1571-1585 | in every run the tree lock is held only by a watcher about to look or reading, whose failure frees it |
| `Watcher.ReadIsShared` | packages/tantra/src/tantra/runtime.py:1571-1585 | what one watcher has read serves the next one without a read exactly if no notice came in between |
| `Watcher.OneReader` | packages/tantra/src/tantra/runtime.py:1571-1585 | at most one watcher reads the tree at a time |
| `Cleanup.CollectTree` | packages/tantra/src/tantra/cleanup.py:147-164 | the loop over a growing list ends for every finite set of headers and collects exactly the root's descendants, each once |
| `Cleanup.CleanupPage` | packages/tantra/src/tantra/runtime.py:1327-1359 | one page reports each root's outcome in order up to the limit or an infrastructure failure, which is listed as unknown |
| `Cleanup.PageAdvances` | packages/tantra/src/tantra/runtime.py:1327-1359 | a failure leaves the cursor before the root that failed; otherwise the page holds the next roots up to the limit, and a cursor is given exactly if roots are left |
| `Cleanup.StatusTells` | packages/tantra/src/tantra/runtime.py:1327-1359 | each status is reported exactly when it holds: how the deletion ended, that it was not attempted, or that the root is active |
| `Cleanup.EveryRootOnce` | packages/tantra/src/tantra/runtime.py:1327-1359 | however often the infrastructure fails, following the cursor deals with every matching root once, in order |
| `Outbox.Session.Pump` | packages/tantra-acp-client/src/client.ts:602-634 | the head is transmitted exactly if nothing is in flight and the session is open and not paused; order, settlement and accounting invariants are kept |
| `Outbox.Session.Prompt` | packages/tantra-acp-client/src/client.ts:259-296 | a prompt is queued last and the head sent if nothing holds it back, or it is refused without a trace in the outbox |
| `Outbox.Session.Answered` | packages/tantra-acp-client/src/client.ts:602-641 | an answer settles the prompt in flight once, if it still heads the outbox, keeps the rest in order and sends the next; a repeated prompt without the writer pauses the session and keeps it |
| `Outbox.Session.Reject` | packages/tantra-acp-client/src/client.ts:800-809 | draining reports `closed` for prompts never transmitted and `uncertain` for transmitted ones, in order |
| `Outbox.DrainedIsExact` | packages/tantra-acp-client/src/client.ts:800-809 | draining reports each prompt of the outbox once, in order, as uncertain exactly if it was transmitted |
| `Outbox.Session.Lost` | packages/tantra-acp-client/src/client.ts:693-728 | a lost connection pauses a writer and keeps the outbox |
| `Outbox.Session.Shutdown` | packages/tantra-acp-client/src/client.ts:730-744 | a shutdown drains the outbox under the same rule |
| `Outbox.Session.Landed` | packages/tantra-acp-client/src/client.ts:626-633 | the rejection of a closed peer's request frees the session and keeps the prompt |
| `Outbox.Session.Opened` | packages/tantra-acp-client/src/client.ts:340-372 | a new connection resumes the session for reading and then sends the head again, once, as a repeat if it was sent before, unless the session is paused; a session the server no longer knows is drained |
| `Outbox.Session.Resumed` | packages/tantra-acp-client/src/client.ts:466-492 | a resume for reading gives up the writer and sends the head unless it is held back |
| `Outbox.Session.Claimed` | packages/tantra-acp-client/src/client.ts:593-600 | a claimed writer resumes the session and sends the head unless one is in flight |
| `Outbox.OnlyHeadSent` | packages/tantra-acp-client/src/client.ts:602-634 | no prompt but the head has been transmitted, so only consecutive repeats of one prompt occur |

## Left out

- `Coordinator`, `TurnProtocol`, `Commands` are state machines over values, because their subject is interleaving between processes; update in place is modelled where one process runs it (`RuntimeTables`, `Recovery`, `Dispatch`). SQL, connection pools, LISTEN/NOTIFY and reconnection are one atomic state with a row lock held from begin to commit.
- Roots are modelled one at a time: the only coupling between roots is the limit on dispatchers.
- `relinquish_failed_prestart`, the sweep of change notices and the `recovery` row of the coordinator are not modelled.
- TurnSafety.ReturnMove: a request's body gives up the process lock and runs its effects in one move, since nothing is awaited in between (packages/tantra/src/tantra/runtime.py:2530-2533).
- Session deletion inside the turn protocol is left out; deletion finality is proved separately.
- Cancels without a coordinator are left out: their acceptance repeats the shape of coordinated cancels.
- A tool context used after its tool body has returned is not modelled.
- Commands.CommandsJournaledOnce: an answer settles its question in the same step that journals it; the future it resolves is not modelled.
- `reduce_journal` and the stores are not part of this model: pending inputs are the queued ones neither started nor ended, in order; the incomplete turn is the started one without an end.
- Command ids made by the runtime are taken to belong to one actor and to differ from user command ids; hashed call ids of one call are taken to be pairwise different.
- Compaction.Compact: the usage-based estimate `_estimate_tokens` and the token estimates are arbitrary non-negative numbers, and float arithmetic is over the reals.
- Assembly.AssembleMessages: messages are values updated by index instead of shared objects; results and arguments are their JSON text.
- TurnLoop.TurnEngine.Step: tracing, usage accounting and header patches are left out; the answers of hooks, permissions, users and validators are inputs; events other writers append in between are not part of the engine's log.
- Stream.StreamEvents: the clock is a choice made at each step; cancellation of the consumer is left out.
- RootSchema.PortableSchema: pydantic's schema generation is left out; definitions are objects, references resolve, and atoms are their JSON text.
- PageReader.Page: a flight of another reader is the cursor it began at and how much of the journal it sees; the retry loop runs over a given number of waits.
- Outbox.Session.Opened: what a resume replays, the update cursor and the resumes of other sessions are left out; a resume that fails otherwise closes the connection, which is `Lost`.
- Outbox.Session.Answered: rejections of a retired peer are taken to land before the next connection opens; descendants are left out.
- Cleanup.CleanupPage: how a deletion ends is an input; selectors and revisions are left out; the matching roots are given in order and do not change.
- Permission globs, transcript reducers, skills, memory scoring, telemetry, HTTP, WebSocket and the applications would only add easy members.
