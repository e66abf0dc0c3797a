# Verified model of the agy_swarms run engine

The swarm engine takes a validated graph of nodes and drives it to a terminal state: a barrier loop takes the ready
nodes, cuts them to a cap, runs each one through reserve, attempt, commit, retry and one fallback, skips the transitive
dependents of failures, and journals the barrier. A later run can resume from that journal. Around it stand a budget
ledger, a validator, a graph-equivalence check, canonical JSON, and a staged pipeline with its own resume.

This project models those parts in Dafny and proves what they are for. Code that works by changing state is modelled by
classes and methods (`Scheduler`, `BudgetLedger`, `Checkpoint`, `Conductor`, `Search`, Kahn's queue, the pipeline's stage
loop); each method is proved equal to a function of the old state, and the theorems are about those functions, over all
inputs, all adapters and all runs.

    dafny verify dfyconfig.toml

## How the files fit together

| files | what they hold |
|---|---|
| `AgyTypes`, `Sorting`, `Dag` | the data shapes; sorting by a total order; walks, cycles, topological orders |
| `Scheduler`, `Budget`, `SplitBudget`, `Checkpoint`, `Validate` | one component each: state machine and skips, ledger, budget split, journal, plan-time gate |
| `Dispatch`, `DispatchTheorems`, `DispatchLimits` | one node from dispatch to its end, as functions; what every dispatch guarantees; when the limit is not felt |
| `DispatchTrace`, `BatchTrace`, `RunTrace` | a dispatch, a batch and a run read off the attempts they made: what each attempt saw and was charged, why another followed, how the node ended |
| `Engine`, `Conductor` | the whole run as functions on an engine state; the conductor class proved equal to them |
| `EngineInvariants`, `EngineRun`, `EngineOutcome`, `EngineRaises`, `RaisingRuns` | what every step keeps; termination; exact outcome; exceptions and exactly which graphs can raise |
| `EngineMeaning`, `EngineResume`, `EngineTheorems`, `RunTheorems`, `ResumeTheorems` | the recursive meaning of a graph; a run computes it; cap independence; resume |
| `BudgetTheorems`, `OverrunTheorems`, `CapTheorems`, `ConservationTheorems`, `RefusalTheorems`, `SuccessRuns` | when a limit is not felt; how far it can be overrun, and that attempts within their caps never do; what a node's charge covers; when the budget stops a run; runs that show what limits and caps do |
| `EngineReadings`, `BlockerTheorems` | where inputs come from and which nodes a barrier takes; what the reported blockers say |
| `Pipeline` | the staged flow and its resume |
| `Canonical`, `Keys` | canonical JSON (sections 3.2.2 and 3.2.3 of RFC 8785) with a parser; the idempotency key |
| `GraphEquivalence`, `IsomorphismSearch`, `GraphSignature`, `GraphReadings` | effective edges and profiles; the backtracking search; the canonical signature; what isomorphism means for nodes, dependencies and edges |

## What an attempt is

An adapter is an arbitrary total function of the node, the attempt number, its dependencies' results, the review adapter
in charge and the remaining budget (`Setup.run`); its envelope counts output and thinking tokens separately, and both are
billed; reducers, command runners and model routing are inside it. Which
accounting an attempt is reserved and committed under is an arbitrary function too. Three conditions appear in the
theorems that need them and nowhere else:

- `BudgetBlind`: attempts do not look at the remaining budget. `Reproducible` adds that no node has a review role, because
  a review failure switches the adapter of every later review node.
- `DistinctKeys`: no two nodes that run get the same key. `Keys.KeyForgetsIdentity` shows why it is needed: the key
  ignores id, role and input names, so two nodes with the same content share one cache entry.
- `SoundJournal` and `Sound`: the journal holds only rows that a run of the same graph, or of the same pipeline, and epoch
  leaves behind. Both are proved to be kept at every point where a run can be cut off.

## Findings

- Exceptions. Of the three a run could raise by itself, an illegal transition and a commit without a reservation never
  happen, and a malformed journal row happens exactly when the run keeps a journal and a node with the empty id succeeds or
  fails (`EngineRaises.RunRaisesExactly`). A key that cannot be computed leaves the run as well: `RaisingRuns` follows runs
  up to that point. Plan-time validation looks at none of this. For an acyclic graph some adapters make some run raise
  exactly when a node has an unregistered tool, declares an input (nothing obliges a dependency to provide it), or, with a
  journal, has the empty id (`RaisingRuns.CanRaiseExactly`); where keys are no concern, exactly when an id is empty
  (`RaisingRuns.JournalCanRaiseExactly`).
- A retry needs a transient failure on an error the node's policy lists, a retry left, nothing billed and room for one more
  reservation, and nothing else; a fallback likewise has an exact condition (`DispatchTraces.DispatchReads`). At the end of
  every run each node's attempts, counters, result and charge are explained by those conditions
  (`RunTraces.RunIsTold`).
- Attempts that stay within their node's caps and cost no dollars never exceed their reservations, and a run of such
  attempts never exceeds the limit, review batches included (`CapTheorems.CapsKeepTheLimit`).
- A batch of review roles that is refused part of the way leaves the nodes before the refused one running, on an attempt
  that was never made and with no reservation (`BatchTraces.PrepareReads`).
- Skipping writes the status without the state machine: a pending node is skipped, although there is no such edge
  (`Scheduling.TransitionsExact`).
- The node-ceiling test refuses every reservation after the first billed token. So a retry or a fallback is only ever
  funded after free attempts. A node stops the whole run without any global refusal exactly when it misses the cache and
  its journaled row, of the same key and whatever epoch, has billed tokens (`RefusalTheorems.AgentStopsOnBilled`). The
  runtime read ignores the epoch and the cache read does not, so after a change of epoch a run can end in its first barrier
  with nothing attempted, however large the limit (`RefusalTheorems.BilledRestartStops`).
- The comment on the fallback calls it gated by capability and budget; for review roles no capability is checked.
- The result of a run does not depend on the cap as long as neither run is refused on the global budget
  (`RunTheorems.CapDoesNotMatter`). Under a limit that refuses, it can: `SuccessRuns.CapMattersWhenRefused` gives one graph,
  one adapter and one limit under which cap 1 and cap 2 complete different nodes.
- One node at a time, the limit is overrun at most by the last attempt's excess over its reservation
  (`BudgetTheorems.SpendIsBounded`). A batch of review roles in one invocation commits after everything was reserved, and
  breaks that bound (`OverrunTheorems.PairOverruns`). On every path the overrun is at most the excesses of the attempts of
  one barrier, the last that made any (`OverrunTheorems.OverrunByLastBarrier`).

## Model

| member | source | states |
|---|---|---|
| Conducting.Conductor.constructor | agy_swarms/conductor.py:88-132 | a new conductor shows the initial engine state: every node pending, nothing reserved or recorded, the journal as given |
| Conducting.Conductor.Run | agy_swarms/conductor.py:136-159 | the driver loop ends and takes the engine state exactly to the specified run, about which the whole-run theorems speak |
| Conducting.Conductor.RunBarrier | agy_swarms/conductor.py:145-156 | one barrier: batch or one by one, skips, journal, in that order |
| Conducting.Conductor.NextBatch | agy_swarms/conductor.py:139-144 | the batch is the ready set cut to at least one and at most cap nodes, empty when the run is over |
| Conducting.Conductor.Agent | agy_swarms/conductor.py:214-228 | key, restore, cache hit or dispatch, tied to the node's step of the engine |
| Conducting.Conductor.Agents | agy_swarms/conductor.py:146-149 | the batch one node at a time, stopping at a budget stop |
| Conducting.Conductor.Dispatch | agy_swarms/conductor.py:230-292 | the whole dispatch of one node, with its result or the budget stop recorded |
| Conducting.Conductor.AttemptUntilDone | agy_swarms/conductor.py:239-292 | the retry loop ends, and its outcome is that of the recursive attempt loop |
| Conducting.Conductor.AttemptNext | agy_swarms/conductor.py:240-273 | one pass either ends the node or leaves fewer retries and the same final outcome |
| Conducting.Conductor.RetryOrFinish | agy_swarms/conductor.py:261-292 | a retry happens exactly when the error is eligible and the budget admits it |
| Conducting.Conductor.RunOnce | agy_swarms/conductor.py:240-256 | reserved, running, counted, attempted, stamped and charged, in that order |
| Conducting.Conductor.Charge | agy_swarms/conductor_accounting.py:49-72 | ledger, runtime total, attempt log and closer change together, or an exception is recorded |
| Conducting.Conductor.CommitLedger | agy_swarms/conductor_budget.py:34-46 | a commit succeeds exactly on an open reservation |
| Conducting.Conductor.Reserve | agy_swarms/conductor_accounting.py:13-46 | the reservation of an attempt, under the accounting that sees the remaining budget |
| Conducting.Conductor.RemainingBudget | agy_swarms/conductor_accounting.py:24-28 | the available budget plus the node's own reservation |
| Conducting.Conductor.FallbackAttempt | agy_swarms/conductor.py:328-443 | the one fallback: next review adapter, configured adapter, or none |
| Conducting.Conductor.ReviewFallback | agy_swarms/conductor.py:341-393 | a funded review fallback switches the adapter for good, tries once and is charged exactly |
| Conducting.Conductor.AdapterFallback | agy_swarms/conductor.py:395-443 | coverage, then budget, then one attempt of the configured adapter |
| Conducting.Conductor.Settle | agy_swarms/conductor_fallback.py:48-71 | error class kept, then the attempt charged |
| Conducting.Conductor.Finish | agy_swarms/conductor.py:274-292 | which failures earn a fallback, and the terminal status, result and blocker |
| Conducting.Conductor.ResolvedInputs | agy_swarms/conductor.py:520-529 | each declared input comes from the first committed dependency that has it |
| Conducting.Conductor.RestoreRuntime | agy_swarms/conductor.py:447-465 | budget, retries and attempt carry over exactly when the row has the same key |
| Conducting.Conductor.Lookup | agy_swarms/conductor_checkpointing.py:17-23 | a usable hit is a terminal row with an envelope, of this epoch |
| Conducting.Conductor.Serve | agy_swarms/conductor.py:467-481 | a served node releases its reservation and takes status, counters, envelope and blocker from the row |
| Conducting.Conductor.CanBatchHere | agy_swarms/conductor_codex_batch.py:25-44 | exactly when a batch of review roles goes through one call |
| Conducting.Conductor.PrepareBatch | agy_swarms/conductor_codex_batch.py:84-105 | every node is keyed, reserved and started, or everything taken so far is released and the run stops |
| Conducting.Conductor.RollBack | agy_swarms/conductor_codex_batch.py:95-99 | the reservations of the nodes prepared before the refusal are released |
| Conducting.Conductor.CommitBatch | agy_swarms/conductor_codex_batch.py:113-141 | each node is charged and ended with its own envelope; a missing one is a failure |
| Conducting.Conductor.ReviewBatch | agy_swarms/conductor_codex_batch.py:47-142 | the batch path as a whole |
| Conducting.Conductor.SkipFailedNodes | agy_swarms/conductor.py:150-155 | every failed node of the batch skips its dependents, one blocker per skipped node |
| Conducting.Conductor.BuildRows | agy_swarms/conductor_checkpointing.py:42-60 | a row for each committed terminal node of the batch, in batch order |
| Conducting.Conductor.CheckpointBarrier | agy_swarms/conductor.py:485-503 | the rows land together; a malformed one raises and changes nothing |
| DispatchTraces.DispatchReads | agy_swarms/conductor.py:230-292 | a dispatch starts exactly if nothing was billed and the reservation fits; each attempt ran on the stated inputs, reserved the two token caps (times the multiplier, if opaque) and was charged by the accounting rule; it was retried exactly on a transient failure with a listed error, a retry left, nothing billed and room; it fell back exactly on a deterministic failure (review roles: anything but budget) with a fallback there and funded; the last attempt fixes status, counters, entry, adapters and blockers |
| DispatchTraces.ClassifyReads | agy_swarms/conductor_retry.py:22-31 | success exactly by status; otherwise the named failure class decides, then a timeout, then the error, and an error that says nothing fails for good |
| DispatchTraces.FallbackReads | agy_swarms/conductor.py:328-443 | after a failed attempt the fallback is tried exactly if there is one (for reviewer and closer: agy then codex then off; else configured and covering) and it is funded; otherwise the blocker says which of the two was missing |
| RunTraces.AgentReads | agy_swarms/conductor.py:214-292 | a node's turn from any journal: a hit takes status, counters and envelope from the row with no attempt; a miss is refused exactly on billed tokens or no room, and otherwise makes exactly the attempts that were due |
| RunTraces.AgentCarriesOver | agy_swarms/conductor.py:447-465 | on a cache miss with a row of the present key, attempts are numbered on from the row, retries never exceed the row's and bound the attempts made, and billed usage adds up; without one the same from zero and the policy's retries |
| RunTraces.RunCarriesOver | agy_swarms/conductor.py:447-465 | the same at the end of every run from any journal, against the row the run started with |
| RunTraces.RunIsTold | agy_swarms/conductor.py:136-159 | at the end of every run, a node that made attempts made exactly those that were due on its final key and its dependencies' final results, and ended as the last one says, or was ended by its own envelope of a batch |
| BatchTraces.PrepareReads | agy_swarms/conductor_codex_batch.py:84-105 | a batch starts exactly if its reservations fit one after the other; refused at a node, that node is told, the ones before it stay running with nothing reserved, the ones after it are untouched, and nothing was attempted |
| BatchTraces.ReviewBatchReads | agy_swarms/conductor_codex_batch.py:107-141 | each node's result is the envelope returned for it under its own id, key and attempt, or a failed one if missing; it succeeded exactly if that envelope did; one blocker for each failed node and no other; charged what its own envelope used |
| EngineReadings.InputsComeFromFirstOffer | agy_swarms/conductor.py:520-529 | the inputs are exactly the declared names some dependency's result offers, each from the earliest that does |
| EngineReadings.BatchIsPrefixOfReady | agy_swarms/conductor.py:139-144 | a barrier takes the first ready nodes in graph order, as many as the cap allows and at least one |
| EngineReadings.OneInvocationExactly | agy_swarms/conductor_codex_batch.py:25-44 | one invocation exactly with no journal, two or more nodes, and only reviewers and closers whose own adapter is codex or the default |
| EngineReadings.OnlyServableIsServed | agy_swarms/conductor_checkpointing.py:17-23 | only a terminal row with its envelope, under the key and of this epoch, is served; where the key and epoch have rows, one is served unless some of them cannot be |
| BlockerTheorems.BlockersExplain | agy_swarms/conductor.py:145-156 | after every run a succeeded or pending node has no blocker, a skipped one exactly one naming a failed node it depends on through others, a failed one exactly one with its result's error after at most one about its fallback |
| Dispatching.ErrorNamesReadBack | agy_swarms/types.py:87-97 | the error named in a blocker reads back as that error |
| Scheduling.Scheduler.constructor | agy_swarms/scheduler.py:110-122 | for any list of nodes: every node pending, and the reverse adjacency inverts the dependencies |
| Scheduling.Scheduler.Ready | agy_swarms/scheduler.py:128-136 | the ready set in graph order |
| Scheduling.ReadySetExact | agy_swarms/scheduler.py:128-136 | once each, exactly the pending nodes whose dependencies all succeeded |
| Scheduling.TransitionsExact | agy_swarms/scheduler.py:40-72 | one step at a time to running and from there to an end; back to ready once reserved; skipped between ready and running; the terminal statuses are exactly those with no way on, the skippable ones exactly the others but running |
| Scheduling.Scheduler.Mark | agy_swarms/scheduler.py:138-141 | a legal edge is taken, an illegal request changes nothing |
| Scheduling.Scheduler.SelectDispatch | agy_swarms/scheduler.py:143-146 | the first ready nodes, as many as there are free slots |
| Scheduling.Scheduler.PropagateSkips | agy_swarms/scheduler.py:148-166 | for any id, skips and returns, once each, exactly the nodes reachable through skippable dependents, and ends on cyclic graphs too |
| Scheduling.Scheduler.IsDone | agy_swarms/scheduler.py:168-170 | true exactly when every node is terminal |
| Scheduling.SettledCoversWalk | agy_swarms/scheduler.py:148-166 | when the worklist is empty, every chain of skippable dependents is skipped to its end |
| Scheduling.WorkDone | agy_swarms/scheduler.py:153-166 | an empty worklist means the skipped nodes are exactly the reachable ones |
| Budget.BudgetLedger.TotalAvailable | agy_swarms/budget.py:203-219 | the limit less the sums over all entries |
| Budget.BudgetLedger.AddUp | agy_swarms/budget.py:203-215 | the loop adds up a column, whatever order it takes the entries in |
| Budget.SumRemove | agy_swarms/budget.py:203-215 | a sum over entries does not depend on the order |
| Budget.BudgetLedger.Reserve | agy_swarms/budget.py:249-304 | admission tests in order, and the new entry; a refusal and a repeat change nothing |
| Budget.BudgetLedger.Commit | agy_swarms/budget.py:306-341 | only an open reservation is replaced by its charge; a missing count is a concern |
| Budget.BudgetLedger.Release | agy_swarms/budget.py:343-349 | releases an open reservation and nothing else |
| Budget.BudgetLedger.SweepOrphans | agy_swarms/budget.py:351-365 | releases every open reservation of any epoch and reports exactly those |
| Budget.SumsSplit | agy_swarms/budget.py:203-219 | reserved plus spent is one entry's share plus everybody else's |
| Budget.AvailableSplit | agy_swarms/budget.py:217-219 | what is available seen from one entry |
| Budget.LedgerSafety | agy_swarms/budget.py:249-365 | after any operation sequence only open entries hold a reservation, and reserved plus spent stay within the limit plus all excesses of commits over reservations |
| Budget.RefusalChangesNothing | agy_swarms/budget.py:268-290 | a refused or repeated reserve and a commit without reservation leave the ledger as it is |
| Budget.ReserveMoves | agy_swarms/budget.py:41-48 | with no reservation open, a node is admitted exactly if it was billed nothing, its output and thinking caps (times the multiplier, if opaque) fit what is available, and no dollars are missing; then that much is reserved and nothing is spent |
| Budget.CommitMoves | agy_swarms/budget.py:306-341 | a commit takes its reservation back and spends the charge: usage if exact, the reservation if nothing was reported, never less than either if opaque; overspend exactly beyond the reservation |
| Budget.ReleaseMoves | agy_swarms/budget.py:343-349 | a release gives exactly the open reservation back and spends nothing |
| Budget.SweepClears | agy_swarms/budget.py:351-365 | a sweep leaves nothing reserved and spends nothing |
| Splitting.SplitBudget | agy_swarms/budget.py:51-78 | the children add up to the total, each is its floor share or one more, the ones in front; the error cases are exact |
| Splitting.RemainderInRange | agy_swarms/budget.py:75-77 | the remainder is at least 0 and below the number of children, so every increment is in range |
| Splitting.EqualSplitIsEven | agy_swarms/budget.py:62-65 | equal shares never increase and differ by at most one |
| Splitting.WeightedSplitIsFair | agy_swarms/budget.py:66-77 | each child is within one unit of its exact weighted share |
| Checkpointing.Checkpoint.CommitBarrier | agy_swarms/checkpoint.py:130-156 | all rows land, later ones replacing earlier ones, or none does |
| Checkpointing.Checkpoint.Lookup | agy_swarms/checkpoint.py:158-164 | the epoch-gated read by key |
| Checkpointing.ReadsLastWritten | agy_swarms/checkpoint.py:130-171 | after a write the epoch-agnostic read by node id returns the last entry with that id, else the row from before |
| Checkpointing.ReadsBack | agy_swarms/checkpoint.py:130-171 | a row just written is found by node id, and by key if no other row of its epoch has the key |
| Checkpointing.LookupIn | agy_swarms/checkpoint.py:158-164 | a hit has the key and the epoch; a miss means no row has both |
| Validate.CheckAcyclic | agy_swarms/validate.py:204-222 | Kahn's check accepts exactly the graphs without a cycle, duplicate and self dependencies included |
| Validate.ValidateOrDie | agy_swarms/validate.py:101-122 | the verdict names exactly which of the id, dependency and cycle checks fails first |
| Dag.AcyclicIffOrdered | agy_swarms/validate.py:204-222 | no cycle exactly when there is a topological order |
| Dag.StuckHasCycle | agy_swarms/validate.py:219-222 | nodes that each depend on another of them contain a cycle |
| DispatchTheorems.DispatchCompletes | agy_swarms/conductor.py:230-292 | for every adapter: at most maximum retries plus two attempts, every attempt but the last bills no tokens, the runtime total is what the attempts used, the ledger charge is what they were charged, the spend exceeds the limit at most by the last attempt's excess, nothing stays reserved, no exception |
| DispatchTheorems.DispatchStopsOnBilled | agy_swarms/budget.py:278-284 | a dispatch stops the run without a global refusal exactly when its node comes with billed tokens |
| DispatchTheorems.DispatchConserves | agy_swarms/conductor_budget.py:34-46 | in one dispatch the running total gains what the attempts used, the ledger charge covers it, and equals it under exact accounting |
| DispatchTheorems.ChargesCoverUsage | agy_swarms/budget.py:306-341 | charges are never below usage, and equal it when every attempt is accounted exactly |
| DispatchTheorems.LoopCompletes | agy_swarms/conductor.py:239-292 | the same of the retry loop entered with an open reservation |
| DispatchTheorems.ReserveGrants | agy_swarms/budget.py:278-290 | what a granted reservation says about earlier spend and the remaining budget |
| DispatchTheorems.FallbackCharges | agy_swarms/conductor.py:328-443 | a fallback is at most one attempt, charged once |
| DispatchLimits.DispatchLooser | agy_swarms/conductor.py:230-292 | a dispatch that is not refused goes the same way under any looser ledger |
| DispatchLimits.DispatchSuffices | agy_swarms/budget.py:249-304 | with enough left for the node's charges and one more reservation, the limit is not felt |
| EngineInvariants.AgentSteps | agy_swarms/conductor.py:214-228 | running one node keeps the engine sane, touches only that node, and leaves nothing reserved |
| EngineInvariants.ReviewBatchRuns | agy_swarms/conductor_codex_batch.py:47-142 | the batch path does the same for its nodes, rollback included |
| EngineRun.BarrierSane | agy_swarms/conductor.py:145-156 | a barrier keeps the engine sane unless a row without node id is journaled |
| EngineRun.BarrierProgress | agy_swarms/conductor.py:138-156 | every barrier leaves fewer pending nodes |
| EngineRun.JournaledFacts | agy_swarms/conductor.py:485-503 | after the journal step exactly the batch's ended nodes have new rows |
| EngineRun.RunUnfolds | agy_swarms/conductor.py:138-158 | the run is over, or one barrier shorter |
| EngineOutcome.NoStall | agy_swarms/conductor.py:138-142 | when nothing is ready and the run was not stopped, nothing is pending |
| EngineOutcome.RunOutcome | agy_swarms/conductor.py:136-159 | unless stopped by the budget or raised by the journal: every node is terminal, every dependency of an ended node succeeded, and a node is skipped exactly when some transitive dependency failed |
| EngineOutcome.RunLeavesNothingReserved | agy_swarms/conductor.py:136-159 | none of the three modelled exceptions and total reserved zero at the end of every run, stopped ones and cyclic graphs included |
| EngineRaises.RunRaisesExactly | agy_swarms/checkpoint.py:138-140 | of the exceptions from transitions, commits and the journal, a run raises one exactly when it keeps a journal and a node with the empty id succeeds or fails |
| EngineRaises.EmptyIdRaises | agy_swarms/validate.py:106-120 | one graph the validator accepts on which every run with a journal raises |
| RaisingRuns.RunOrIsRun | agy_swarms/conductor.py:214-228 | a run in which every key can be computed and no row is refused ends where the other run theorems say |
| RaisingRuns.CanRaiseExactly | agy_swarms/types.py:205-214 | some run over an acyclic graph raises exactly when a node has an unregistered tool, declares an input, or, with a journal, has the empty id |
| RaisingRuns.CanRaiseRisky | agy_swarms/conductor.py:216-221 | the same for any key function: a graph can raise exactly when some key cannot be computed from nothing, or, with a journal, some id is empty |
| RaisingRuns.JournalCanRaiseExactly | agy_swarms/checkpoint.py:138-140 | where every key can be computed, a graph can raise in the journal exactly when an id is empty |
| EngineMeaning.MeaningExists | agy_swarms/conductor.py:136-159 | every acyclic graph has a meaning: skipped if a dependency did not succeed, else the outcome of its own attempts |
| EngineMeaning.MeaningUnique | agy_swarms/conductor.py:136-159 | and only one |
| EngineResume.AgentAgrees | agy_swarms/conductor.py:214-228 | a node that runs or is served from a sound journal ends as the meaning says |
| EngineTheorems.BarrierFollows | agy_swarms/conductor.py:145-156 | a barrier keeps agreement with the meaning and the soundness of the journal |
| EngineTheorems.RunFollows | agy_swarms/conductor.py:136-159 | so does a run that is not refused on the global budget |
| RunTheorems.RunIsMeaning | agy_swarms/conductor.py:136-159 | a run from any sound journal ends with the meaning's states, results and journal, and attempts exactly the nodes that were not journaled, each with exactly its own attempts |
| RunTheorems.CapDoesNotMatter | agy_swarms/conductor.py:144 | from every sound journal, statuses, results, attempts and the final journal are the same for any two caps under which the run is not refused |
| SuccessRuns.CapMattersWhenRefused | agy_swarms/conductor.py:144 | under a limit that refuses, two caps complete different nodes of one graph |
| ResumeTheorems.PrefixFollows | agy_swarms/conductor.py:447-503 | the journal after any number of barriers is sound |
| ResumeTheorems.ResumeSimulates | agy_swarms/conductor.py:447-503 | resumed after any prefix of barriers, the run ends with the same states, results and journal as the uninterrupted one, never attempts a journaled node, attempts the others alike, and with the same cap is not refused either |
| BudgetTheorems.AmpleRunIsMeaning | agy_swarms/budget.py:249-304 | a limit that holds the graph's charges plus one reservation is never felt |
| BudgetTheorems.SpendIsBounded | agy_swarms/conductor.py:136-159 | on every graph and for every adapter the reported spend is the sum of the attempts' charges, and when no batch takes the one-invocation path (cap at most 1, a journal, or no review role) it exceeds the limit at most by the last attempt's excess over its reservation |
| OverrunTheorems.OverrunByLastBarrier | agy_swarms/conductor_codex_batch.py:84-141 | on every path the spend is within the limit plus the excesses of the attempts of the last barrier that made any |
| OverrunTheorems.PairOverruns | agy_swarms/conductor_codex_batch.py:84-141 | two reviews in one invocation that spend ten times the limit, past the single-attempt bound |
| CapTheorems.CapsAreReserved | agy_swarms/budget.py:41-48 | whoever makes it, an attempt within its node's two token caps that costs no dollars uses and is charged no more than it reserved |
| CapTheorems.CapsKeepTheLimit | agy_swarms/budget.py:268-290 | if every attempt of a run stays within its node's caps, the reported spend is within the limit: any journal, any cap, batches included |
| ConservationTheorems.NodeChargesCoverUsage | agy_swarms/conductor_budget.py:34-46 | at the end of every run a node that made attempts has a running total of exactly the tokens they used and a charge that covers them, equal under exact accounting; without a journal every ended node made one |
| RefusalTheorems.AgentStopsOnBilled | agy_swarms/conductor.py:447-465 | a node stops the run without a global refusal exactly when it misses the cache and its journaled row of the same key has billed tokens; nothing is attempted |
| RefusalTheorems.BilledRestartStops | agy_swarms/conductor.py:230-238 | from a journal of other epochs whose first ready node was billed, every run ends in its first barrier with no attempt and no global refusal |
| BudgetTheorems.OverspentAdmitsNothing | agy_swarms/budget.py:289-290 | once more is spent than the limit, no reservation is admitted again |
| Pipelining.RunItem | agy_swarms/conductor_pipeline.py:18-63 | the stage loop ends with the specified result, journal and list of executed stages; with no journal or a sound one, those of a chain in which each stage sees its predecessor's artifact |
| Pipelining.RunPipeline | agy_swarms/conductor.py:542-567 | the items one after another, results in input order, each that of its own chain of stages |
| Pipelining.CacheLookup | agy_swarms/conductor.py:572-575 | only a committed success of this epoch is served |
| Pipelining.OnlyCommittedIsServed | agy_swarms/conductor.py:572-575 | only a success with its envelope, under the key and of this epoch, is served to a stage; one is, unless another row of the key and epoch cannot be |
| Pipelining.JournalStage | agy_swarms/conductor.py:577-580 | a completed stage is journaled under its own id and key |
| Pipelining.StageKeysDiffer | agy_swarms/conductor_checkpointing.py:63-67 | for a digest without collisions, two stage keys are equal exactly for the same pipeline, item, stage, stage count and epoch |
| Pipelining.StageIdsDiffer | agy_swarms/conductor_pipeline.py:40 | two stage ids of one pipeline are equal exactly for the same item and stage |
| Pipelining.ItemResumes | agy_swarms/conductor_pipeline.py:33-63 | from a sound journal an item gives the status, envelope and stage count it gives with none, executes exactly the reached stages without a committed row, and journals every completed stage |
| Pipelining.ItemIsTold | agy_swarms/conductor_pipeline.py:33-63 | with no journal, or a sound one, there is a chain of envelopes, each its stage's answer to the item and the previous artifact, all before the last succeeded; the result is the last one; exactly the stages without a row ran, and exactly those of them that succeeded have a new row |
| Pipelining.FinishedItemStaysFinished | agy_swarms/conductor_pipeline.py:36-39 | a second pass gives the same result and executes nothing but the stage that failed |
| Pipelining.CutOffAnywhere | agy_swarms/conductor.py:577-580 | cut off after any stage, the journal is sound for every item |
| Pipelining.PipelineResumes | agy_swarms/conductor.py:550-567 | every item's result is what it is alone and without a journal, so a failure stays with its item |
| Pipelining.PipelineIsTold | agy_swarms/conductor.py:542-567 | every item of a pipeline ends by a chain of its own, in input order |
| Canonical.EscapeString | agy_swarms/canonical.py:44-56 | the escaped string is one the parser reads back to the original |
| Canonical.StringRoundTrip | agy_swarms/canonical.py:44-56 | whatever follows the closing quote is left untouched |
| Canonical.ByteOrderIsUnitOrder | agy_swarms/canonical.py:65-68 | big-endian byte order of keys is code unit order |
| Canonical.SortKeyInjective | agy_swarms/canonical.py:65-68 | two keys with one sort key are the same key |
| Canonical.RoundTrip | agy_swarms/canonical.py:71-94 | a parser recovers every value, keys in order, from its text followed by anything that does not start with a digit |
| Canonical.NormalizeExact | agy_swarms/canonical.py:84-93 | two values have one normal form exactly when they are the same up to key order |
| Canonical.CanonicalExact | agy_swarms/canonical.py:97-99 | two values print the same exactly when they are the same up to key order |
| Canonical.InsertionOrderIrrelevant | agy_swarms/canonical.py:88-93 | dictionaries with the same bindings print the same |
| Canonical.KeysAscend | agy_swarms/canonical.py:90-92 | an object's members come out once each, their keys strictly ascending by UTF-16 code units |
| Canonical.UnitsDecode | agy_swarms/canonical.py:65-68 | the code units of a character decode to it, as itself or as a surrogate pair |
| Canonical.EscapeIsShortest | agy_swarms/canonical.py:33-54 | a character stands for itself unless it must be escaped, and then has its short form if there is one |
| Canonical.NumbersAreShortest | agy_swarms/canonical.py:77-78 | no leading zero, and a minus sign exactly for negative numbers |
| Keys.ComputeIdempotencyKey | agy_swarms/types.py:179-221 | fails exactly on an unresolved input or unregistered tool; otherwise gives the key of the payload, optional entries only where present |
| Keys.PayloadReads | agy_swarms/types.py:194-214 | the sixteen members that are always there, under their names |
| Keys.PayloadOptions | agy_swarms/types.py:215-220 | map, reducer and command are members exactly where the node has them |
| Keys.CapsAndRetriesRead | agy_swarms/types.py:206-207 | the members of the caps and retry policy objects, by name |
| Keys.MapAndReducerRead | agy_swarms/types.py:215-218 | the members of the map and reducer objects, by name |
| Keys.InputDigestsRead | agy_swarms/types.py:209 | each input's digest is that of its canonical value, in declared order |
| Keys.ToolDigestsRead | agy_swarms/types.py:210-213 | each tool's digest is that of its canonical schema followed by its source hash, in allowlist order |
| Keys.KeyExact | agy_swarms/types.py:179-221 | for a digest without collisions, two keys are equal exactly when everything hashed is equal, values up to key order |
| Keys.ToolTextExact | agy_swarms/canonical.py:120-122 | the appended source hash cannot run into the schema |
| Keys.KeyForgetsIdentity | agy_swarms/types.py:189 | nodes that differ only in id and role have the same key |
| GraphEquivalence.CollectEdges | agy_swarms/graph_equivalence.py:102-110 | the effective edges, or an error exactly when an id names no node |
| GraphReadings.EffectiveEdgesExact | agy_swarms/graph_equivalence.py:102-110 | an effective edge leads exactly from a node to each that depends on it and along each explicit edge; of nodes with one id the last stands for all |
| GraphEquivalence.IsoKeepsProfile | agy_swarms/graph_equivalence.py:127-136 | an isomorphism keeps every degree profile, so profiles never exclude its choice |
| IsomorphismSearch.Adjacency | agy_swarms/graph_equivalence.py:113-124 | lists every neighbour once |
| IsomorphismSearch.AllCandidates | agy_swarms/graph_equivalence.py:71-81 | every isomorphism chooses among the candidates; an empty row means there is none |
| IsomorphismSearch.PartialEdgesMatch | agy_swarms/graph_equivalence.py:174-188 | true exactly when every edge to a mapped position goes to an edge |
| IsomorphismSearch.PruningIsSafe | agy_swarms/graph_equivalence.py:158-161 | the pruning discards no partial map that can be completed |
| IsomorphismSearch.Search.HasIsomorphism | agy_swarms/graph_equivalence.py:139-171 | true exactly when the partial map extends to an isomorphism; otherwise the map and the used positions are as before |
| IsomorphismSearch.Search.Try | agy_swarms/graph_equivalence.py:162-170 | one choice is searched to its end and taken back if it fails |
| IsomorphismSearch.EquivalentGraphShape | agy_swarms/graph_equivalence.py:55-91 | true exactly when a role-preserving bijection carries one effective edge set onto the other; an error exactly when the roles agree and an id is unresolved |
| GraphReadings.IsomorphicMeans | agy_swarms/graph_equivalence.py:55-91 | two graphs have isomorphic shapes exactly if the nodes of one can be renamed to those of the other so that roles, dependencies and edges agree |
| IsomorphismSearch.IsoKeepsRoleCounts | agy_swarms/graph_equivalence.py:57-60 | the early role test loses no isomorphic pair |
| IsomorphismSearch.IsoKeepsEdgeCounts | agy_swarms/graph_equivalence.py:66-67 | neither does the edge count test |
| GraphSignature.PermutationsExact | agy_swarms/graph_equivalence.py:40-42 | the enumeration lists exactly the permutations |
| GraphSignature.ArrangementsExact | agy_swarms/graph_equivalence.py:40-46 | and the product exactly the role-respecting assignments |
| GraphSignature.ComputeSignature | agy_swarms/graph_equivalence.py:21-52 | the sorted roles and the least edge tuple over all role-respecting assignments |
| GraphSignature.LeastTuple | agy_swarms/graph_equivalence.py:39-52 | the running minimum is the least over all assignments |
| GraphReadings.SignatureIsLeast | agy_swarms/graph_equivalence.py:21-52 | the signature lists the roles in ascending order and an ascending edge tuple that comes first among all role-respecting arrangements |
| GraphSignature.SignatureComplete | agy_swarms/graph_equivalence.py:21-52 | two signatures are equal exactly when the shapes are isomorphic |
| GraphSignature.SignatureDecides | agy_swarms/graph_equivalence.py:21-52 | the same for two graphs whose ids resolve |
| GraphSignature.CompareGraphs | agy_swarms/planner.py:164-166 | the signatures of two graphs are equal exactly when the isomorphism search says the graphs are equivalent |

## Left out

- Floats: `%.6g` in canonical JSON merges distinct values; dollars in the ledger are exact reals here, so float rounding is not modelled.
- SHA-256 and UTF-8: a digest is an arbitrary function, assumed free of collisions where a theorem says so; the text is not encoded to bytes.
- SQLite, WAL and the JSON text of envelopes: the journal is a map from node id to row with an all-or-none write; which of several rows with one key a query returns first is an arbitrary choice.
- Adapters, subprocess runners, prompts, reducers, model selection and tier escalation: they are behind the adapter function and the two accounting functions. Exceptions they raise, and blockers and events they record, are not modelled.
- Unknown adapter names for review roles: the routing error is not modelled; a batch goes to the batch path exactly for the adapters `codex` and the empty default.
- `Budget.BudgetLedger.Reserve`: no subtree limit, because the conductor never passes one.
- `Validate.ValidateOrDie`: only the id, dependency and cycle checks; the reducer, map, template and single-writer checks are not modelled.
- `Conducting.Conductor.Run`: follows runs in which every key can be computed; `RaisingRuns` adds the key that cannot. An exception does not unwind the stack; it sets a flag that ends the run at the barrier, and the flag is proved to be set exactly in the case `EngineRaises.RunRaisesExactly` names.
- `Conducting.Conductor.BlockSkipped`: the order of blockers is kept in a sequence but proved only as a multiset.
- Runtime records are values in a map of the scheduler; that the conductor and the scheduler alias one record is modelled by writing through the scheduler.
- Reservation ids, the event log, review telemetry and the multiplier drift check: they do not influence a run.
- `RunTheorems.RunIsMeaning` and `ResumeTheorems.ResumeSimulates`: no node with a review role and no attempt that looks at the remaining budget, because those make an attempt depend on the order of the others.
- `ResumeTheorems.ResumeSimulates`: cut-offs are between barriers, since a barrier's rows land together or not at all.
- `Keys.ComputeIdempotencyKey`: the engine's key function stays an arbitrary function of a node and its resolved inputs; the concrete one is modelled on its own, without the conversion between the two node types.
- Lockfile drift: straight-line comparisons that would only add easy members.
- The blackboard, policy, planner, routing, quality and evaluation modules, the command line and the report shaping: settled by one branch or a short loop each.
