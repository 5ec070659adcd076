# A verified model of busybeaver

This project models the concurrent core of the busybeaver crate in Dafny 4.11 and proves what its
design promises. `dafny verify dfyconfig.toml` checks everything.

Code that changes shared state is modelled twice. A class or method keeps the same mutable fields
and branches as the source, and its postcondition ties each lock-held block to a step function on
values. A transition system then interleaves those steps, together with the notifications, sends,
checks and waits that happen outside the locks, in every possible order. The theorems speak of every
state that some run of that system reaches.

| files | what they model |
|---|---|
| `LaneState`, `LaneShared`, `LaneSystem` | the lane scheduler: state, mutable form, concurrent actors |
| `LaneInvariant`, `LaneRuns`, `LaneFairness`, `LaneTheorems` | its invariant over all runs, fairness and order, main results |
| `LanePolicy` | who is started, admitted, woken and left queued, told by the lane's own fields |
| `LaneDispatcher` | the dispatcher task and its wake-ups, laid over the lane's system |
| `RangeInterval` | the compiler of overlapping delay ranges and its lookup |
| `ExecutionState`, `ExecutionCore`, `ExecutionSystem`, `ExecutionRuns`, `ExecutionTheorems` | one execution: lifecycle, terminal commit, tracked children |
| `DamSystem`, `Dam`, `DamTheorems`, `LegacyLoops` | the legacy queue with its cancel watermark, and its attempt loops |
| `ScopeState`, `ScopeSystem`, `ScopeTheorems` | scope generations and rotation |
| `SlotState`, `SlotSystem`, `SlotTheorems` | newest-wins replacement |
| `Schedule` | when a recurring task runs next |
| `RestartBudget` | restart windows and the service generation loop |
| `Backoff`, `Retry` | retry delays, their validation and the attempt loop |
| `Attempts` | the begun and closed marks shared by the retry and service loops |
| `Wrappers` | options, results and machine-integer bounds |

## Modelling choices

- A run is a finite list of events from the initial state. Locks make a block atomic; everything a
  source function does after releasing its lock is a separate event. Atomics are taken as
  sequentially consistent.
- Execution ids are fresh when an execution is created. Ids and ordering keys are only compared.
- Counters have the widths of the source: 64-bit tickets, sequences, transactions and generations,
  `usize` reference counts on 64-bit targets, 32-bit restart counts, 128-bit nanosecond counts.
- A waiting producer's `Notify` is one stored permit and an asleep flag. Permits merge.
- The lane's wake-ups are debts: whoever frees a slot owes the waiting head a notification, and
  the head is picked when the debt is paid. The entry is published before the execution is
  registered, so dispatch and cancellation may fall between the two.
- The dispatcher may die at any moment. The admission lock that excludes an executor shutdown during
  admission is not modelled, which only allows more interleavings.
- `BTreeMap` tickets are an ascending list, sorting and the binary heap of the range compiler are
  written out, and partition-point is bisection.
- Runtime, timers, panics, user code and clocks are environment choices: event parameters in the
  systems, scripts in the attempt loops.
- The body of an execution may be cut only by a forced abort or the loss of its runtime; its runner
  may be dropped at any await point. Only that cut produces an aborted exit; bodies never return one.

## Where a promise needs a condition

- Structured children: a forced abort that hits a body while it awaits the children of a closed
  attempt loses track of them, and the parent may commit before them. Plain tasks and futures have a
  single attempt and never close it; retries, recurring tasks and services do. Normal commits find all
  children terminal in every run exactly when aborts, or children, are not allowed or the body never
  closes an attempt (`CooperativeMeansStructured`).
- Attempts and their children: docs/GUIDE_en.md:109-110 promises that attempt children are cleaned
  before a retry advances. Every attempt begins after all earlier children ended, in every run, exactly
  when the task can have no children or is of a kind that closes what it begins
  (`ClosingKeepsAttemptsApart`): a retry (`RunRetry`), the ticks of a recurring task, a retry with a single
  attempt inside such ticks, or a service that does not restart after a panic. It fails for a retry of
  several attempts inside a recurring task, whose next tick reopens the number of an old attempt before
  the retry begins (`ReopenedAttemptOverlaps`), and for a service that restarts after its factory panicked,
  which leaves that generation open (`UndrainedAttemptOverlaps`, `RunService`).
- Rotation: generations are separated in every run exactly when all rotations are strict
  (`StrictRotationSeparates`).
- Slots: a strict request keeps the slot at one live execution, whatever happens before the next
  request, exactly when it finds no execution that is live and admitted but not yet published
  (`RequestKeepsOneInstance`, `UnpublishedIsNotAwaited`). A caller meets this by requesting only after
  the handle of the earlier replacement has resolved; then a slot never has two live executions
  (`StrictMeansOneInstance`). A finished execution can stay current only if a newer transaction was
  accepted before its monitor ran (`StaleCurrent`, `StaleCurrentRemains`).
- Repeated requests: asking a slot again for its present revision and specification never changes it, and
  names the execution asked for exactly if that has been published; before, the answer is the one it
  replaces (`RepeatedRequest`, `RepeatNamesThePredecessor`).
- Skipped ticks: the grid index counts executed ticks, so a schedule that has skipped reports missed
  points again on each later tick (`SkippingStaysLate`).
- The cancel watermark: the next stamp is safe from the cancels made so far exactly when all of them
  have returned (`NextTaskIsSpared`). What is stamped while one is running may be flagged as the current
  execution (`CancelMayFlagLaterTask`).
- A legacy task with zero attempts ends without any callback (`Finished` in `LegacyLoops`).

## Model

| member | source | states |
|---|---|---|
| LaneTheorems.LaneInvariantOverRuns | src/lane.rs:302-317 | in every reachable state the queue lists the queued entries once each within capacity, `running` counts the active executions that are not queued and is within the concurrency limit, no two running executions share an ordering key, and every reference count is the positive number of holders of its key |
| LaneTheorems.LoggedBranchesUnreachable | src/lane.rs:457-484 | no counter underflows and no lookup misses in any reachable state, so the logged repairs never run |
| LaneTheorems.NoLostWakeup | src/lane.rs:402-448 | while the lane is open with a free slot its first waiter is active, holds a permit, or is owed a notification; after close every waiter is |
| LaneTheorems.QuiescentWaitersMeanFull | src/lane.rs:1475-1497 | when nobody owes anything and all waiters sleep, the lane is open and its queue is exactly full |
| LaneTheorems.AdmissionIsFifo | src/lane.rs:373-396 | tickets are admitted in the order they were handed out |
| LaneTheorems.NoBarging | src/lane.rs:1083-1095 | while anyone waits, whoever is admitted next holds a ticket no larger than any waiter's |
| LaneTheorems.CloseStopsAdmission | src/lane.rs:925-929 | after close no event admits anything |
| LaneTheorems.CloseKeepsDispatching | src/lane.rs:668-678 | closing neither enables nor disables any sequence of starts |
| LaneTheorems.ExitMeansDrained | src/lane.rs:790-812 | a dispatcher pass tells it to exit exactly when the lane is closed and every admitted execution was withdrawn or has finished, and then the pass started nothing |
| LaneTheorems.StartsAtMostOnce | src/lane.rs:563-646 | each admitted execution is queued, withdrawn or started, never two of these, and no execution starts twice |
| LaneTheorems.ReadyStarvationBound | src/lane.rs:327-348 | in any run, an entry with r older queued entries, keyed or not, is started or withdrawn once r + 1 aging dispatches have found its key free |
| LaneTheorems.BoundedByCapacity | src/lane.rs:327-348 | within any run, 8 * capacity dispatches start every unkeyed queued entry that is not withdrawn |
| LaneTheorems.StarvationBound | src/lane.rs:566-636 | in any run, an unkeyed entry with r older queued entries is started or withdrawn within 8 * (r + 1) dispatches, whatever arrives later |
| LaneFairness.AgingSurvivesWrap | src/lane.rs:623-632 | the dispatch counter reaches an aging dispatch in the same number of steps when it wraps |
| LaneTheorems.LeftForGood | src/lane.rs:536-646 | an admitted execution that has left the queue never returns to it |
| LaneTheorems.OlderStartsFirst | src/lane.rs:331-345 | of two queued entries with one key, or none, the older starts first in every run if it is at least as urgent and not withdrawn |
| LanePolicy.PriorityDecides | src/lane.rs:563-646 | in every run, each start of a pass has, among the queued entries whose key no running execution holds, the highest priority and the least sequence of that priority; on every eighth dispatch it has the least sequence of all |
| LanePolicy.IdleMeansBlocked | src/lane.rs:566-588 | a pass leaves a free slot only if every entry still queued has the key of a running execution |
| LanePolicy.CheckDecides | src/lane.rs:1061-1098 | a check turns away exactly when the executor or the lane is closed, and lets through exactly the first waiter of an open lane with room; the others wait |
| LanePolicy.FirstIsAdmitted | src/lane.rs:919-986 | the first waiter of an open lane with room for its key is inserted as the youngest entry with the priority and key it asked for; any other attempt changes no lane state |
| LanePolicy.NewcomerIsAdmitted | src/lane.rs:949-986 | a producer without a ticket is admitted exactly if the lane is open with room and nobody waits |
| LanePolicy.RegistrationDecides | src/lane.rs:992-998 | a failed registration withdraws the entry if it is still queued; a successful one changes nothing |
| LanePolicy.ParkTakesPermit | src/lane.rs:402-406 | a producer that finds a stored notification consumes it and looks again, and sleeps otherwise |
| LanePolicy.SignalReachesOne | src/lane.rs:493-506 | a targeted notification wakes its producer or leaves it one permit, and touches no other |
| LanePolicy.NotificationsReach | src/lane.rs:508-529 | notifying the head signals whoever is first by then; notifying all signals everyone in line |
| LanePolicy.ShutLaneAdmitsNobody | src/lane.rs:668-678 | once a lane is asked to close, or its dispatcher stopped, no run admits anything more |
| LaneDispatcher.DispatcherNotForgotten | src/lane.rs:790-800 | while the dispatcher waits with no permit or broadcast and is owed none, it has no reason to exit and every entry it could start still has a producer about to announce it; once none has, nothing is startable |
| LaneDispatcher.SignalsAreKept | src/lane.rs:790-800 | a broadcast reaches a dispatcher that has armed even before it waits; a single notification is kept for its next wait |
| LaneDispatcher.IsLaneRun | src/lane.rs:790-812 | with the dispatcher's signals forgotten, every run is a run of the lane's system with the same lane state |
| LaneRuns.StepKeeps | src/lane.rs:486-820 | every event of every actor keeps the system invariant |
| LaneInvariant.InsertKeeps | src/lane.rs:919-986 | an admitted insertion keeps the lane invariant |
| LaneInvariant.RemoveQueuedKeeps | src/lane.rs:536-548 | withdrawing any execution keeps the lane invariant |
| LaneInvariant.DispatchOneKeeps | src/lane.rs:590-635 | starting the chosen entry keeps the lane invariant, in particular one running execution per key |
| LaneInvariant.ExecutionFinishedKeeps | src/lane.rs:648-666 | reporting a started execution keeps the lane invariant |
| LaneInvariant.FinishWaiterKeeps | src/lane.rs:408-448 | giving back a ticket from anywhere in the line keeps it ordered and counted |
| LaneShared.SelectReadyCandidate | src/lane.rs:327-348 | on every eighth dispatch the selected candidate is the oldest; on the others no candidate has a higher priority, and none of the same priority is older |
| LaneShared.SelectionIsChosen | src/lane.rs:566-588 | the position selected among the offered ones holds the entry the whole queue would choose |
| LaneShared.LaneShared.NewWaitingProducer | src/lane.rs:373-396 | hands out the next ticket at the end of the line, or reports the waiter limit or exhausted tickets without change |
| LaneShared.LaneShared.FinishWaitingProducer | src/lane.rs:408-448 | removes the ticket and returns the waiter to wake exactly if the ticket was first |
| LaneShared.LaneShared.DecrementOrderingKeyRefcount | src/lane.rs:457-484 | counts one holder less and drops the key with its last holder |
| LaneShared.LaneShared.RemoveQueuedExecution | src/lane.rs:536-552 | withdraws a queued execution with its key reference and says whether it was queued |
| LaneShared.LaneShared.CheckTryAdmission | src/lane.rs:1061-1098 | the admission error for a ticket or for a newcomer, the executor-wide flag first, in the order of the source |
| LaneShared.LaneShared.InsertPrepared | src/lane.rs:919-986 | inserts at the back with the next sequence and a key reference, or fails without change |
| LaneShared.LaneShared.ReadyCandidates | src/lane.rs:567-587 | offers exactly the queue positions whose key is not running |
| LaneShared.LaneShared.TakeStartable | src/lane.rs:563-646 | starts chosen entries one after another until the limit is reached or nothing is ready, keeps the invariant, and says whether to exit; `LanePolicy.PriorityDecides` says which entries those are |
| LaneShared.LaneShared.FinishExecution | src/lane.rs:648-666 | releases the running slot and the key of a finished execution |
| LaneShared.LaneShared.Close | src/lane.rs:668-678 | closes admission and returns every queued or running control |
| LaneShared.LaneShared.StopDispatcher | src/lane.rs:742-778 | marks the lane dead, hands back queued entries and running controls, and clears everything |
| LaneShared.LaneShared.Stats | src/lane.rs:680-740 | counts queued entries as blocked or as ready by priority |
| LaneShared.StatsCoverQueue | src/lane.rs:680-740 | blocked and ready entries together are the whole queue |
| RangeInterval.CompileIntervals | src/range_interval_task.rs:209-323 | for every total and list of ranges the plan answers each attempt with the last range containing it, or 0, in dense and in segment form; it is dense exactly if there are at most 4096 attempts or every canonical segment list of that meaning is at least as large |
| RangeInterval.LaterRangeWins | src/range_interval_task.rs:221-236 | a range holds from its start through its end, the last one that holds decides, and none means no delay |
| RangeInterval.Sweep | src/range_interval_task.rs:241-286 | the sweep over windows yields canonical segments that mean "later wins" up to the total |
| RangeInterval.WindowMeans | src/range_interval_task.rs:269-285 | one window, merged or masked, extends the canonical meaning to its end |
| RangeInterval.Normalize | src/range_interval_task.rs:215-236 | the spans are the non-empty clipped ranges and their ends are boundaries |
| RangeInterval.SortByStart | src/range_interval_task.rs:237 | sorts the spans by start, keeping exactly the same spans |
| RangeInterval.SortDedup | src/range_interval_task.rs:238-239 | boundaries in strictly increasing order, none lost |
| RangeInterval.Prune | src/range_interval_task.rs:263-268 | the heap's top is still open, and only spans that have ended were removed |
| RangeInterval.Materialize | src/range_interval_task.rs:298-321 | the dense table agrees with the segments everywhere, and every segment fits it |
| RangeInterval.DelayIsLookup | src/range_interval_task.rs:45-76 | bisection finds the segment that contains an attempt |
| RangeInterval.CanonicalUnique | src/range_interval_task.rs:273-286 | two canonical segment lists with the same meaning are equal |
| RangeInterval.MeaningDecidesPlan | src/range_interval_task.rs:209-288 | range lists with the same meaning compile to the same segments |
| RangeInterval.PlanIsCompact | src/range_interval_task.rs:235-288 | n effective ranges compile to at most 2n - 1 segments |
| ExecutionTheorems.OneTerminal | src/execution.rs:665-739 | at most one commit takes effect; the public state, the summary waiters see and the stored or taken result are of the same one of the six kinds, with the same reason, source or preceding stop |
| ExecutionTheorems.FirstCauseWins | src/execution.rs:672-723 | the outcome is a prepared forced abort, else what the first stop request made while live dictates, else the prepared exit; a deadline keeps a prepared deadline exit with its last error; an abort names no other preceding stop |
| ExecutionTheorems.CutOffOutcomes | src/execution.rs:1803-1812 | a body cut off ends aborted if an abort was forced and as stopped by the runtime if not; a dropped runner leaves the outcome to the first stop cause, else to its own cancellation |
| ExecutionTheorems.BodyDecidesOutcome | src/execution.rs:1988-2017 | in every run what the body returned is committed, unless its runner was dropped first, and is the outcome if no stop was requested |
| ExecutionTheorems.StateFollowsAttempt | src/execution.rs:1329-1334 | the public state shows the attempt that begins unless the execution is stopping or terminal |
| ExecutionTheorems.TerminalIsForever | src/execution.rs:592-600 | no later event changes a terminal execution, its outcome or what waiters saw |
| ExecutionTheorems.FlagMeansStop | src/execution.rs:592-633 | the cancellation flag is raised, or about to be, exactly when a stop was accepted |
| ExecutionTheorems.CancelledWhileQueued | src/execution.rs:559-568 | a stop accepted before the start keeps the body from ever running or spawning |
| ExecutionTheorems.ChildrenBeforeParent | src/execution.rs:741-767 | at a normal commit child admission is closed and every child ever admitted is terminal, save those an abort orphaned |
| ExecutionTheorems.ClosedToChildren | src/execution.rs:1360-1372 | once admission is closed no context adds a child |
| ExecutionTheorems.AttemptsDoNotOverlap | src/retry.rs:807-838 | every child admitted so far is terminal when an attempt begins, for retries, recurring ticks, single-attempt retries in ticks and services without restarts after a panic |
| ExecutionTheorems.CooperativeMeansStructured | src/execution.rs:778-811 | all normal commits of all runs find all children terminal if and only if aborts or children are not allowed or the body is a plain one, which closes no attempt |
| ExecutionTheorems.ClosingKeepsAttemptsApart | src/execution.rs:769-811 | in all runs every attempt begins after all earlier children ended, if and only if the kind of body closes every attempt it begins or there can be no children |
| ExecutionTheorems.ReopenedAttemptOverlaps | src/recurring.rs:533-543 | the failing half for recurring tasks: the second tick reopens the number of the first tick's second attempt, a context kept from it spawns a child, and the retry's first attempt begins beside that child |
| ExecutionTheorems.UndrainedAttemptOverlaps | src/service.rs:476-528 | the failing half for services: a generation whose factory panicked after spawning a child is followed by one that begins beside that child |
| ExecutionRuns.StepKeeps | src/execution.rs:485-811 | every event keeps the execution invariant |
| ExecutionState.SiftPartitions | src/execution.rs:787-797 | closing an attempt takes or keeps every child and loses none |
| ExecutionState.SiftKeepsOrder | src/execution.rs:787-797 | the children taken, and those kept, stay in their order, and every position of the list is taken or kept by its attempt |
| ExecutionCore.ResultCell.Store | src/execution.rs:839-854 | keeps the first exit stored and answers with the summary of the same kind |
| ExecutionCore.ExecutionCore.ClaimStart | src/execution.rs:559-568 | starts the first attempt unless stopped or terminal |
| ExecutionCore.ExecutionCore.SetActiveState | src/execution.rs:539-546 | changes the public state only while live |
| ExecutionCore.ExecutionCore.RequestStop | src/execution.rs:592-633 | accepts the first stop cause, raises the flag and hands out the children to cancel |
| ExecutionCore.ExecutionCore.Commit | src/execution.rs:665-739 | stores the prepared exit, or what the accepted stop cause makes of it, once, and publishes the summary and the state of its kind |
| ExecutionCore.ExecutionCore.RequestForcedCancellation | src/execution.rs:485-516 | which answer is given when, and that the request is recorded once |
| ExecutionCore.ExecutionCore.ForcedExit | src/execution.rs:518-522 | a forced exit is the exit of a body cut by an abort, and no stop cause, however late, overrides it at commit |
| ExecutionCore.ExecutionCore.PrepareExit | src/execution.rs:1988-2017 | an aborted exit is prepared exactly for a body cut off after a forced abort was requested; a body cut off otherwise, or one that ended, never yields one |
| ExecutionCore.ExecutionCore.BeginAttempt | src/execution.rs:769-776 | makes the attempt current and opens it as far as the parent is open |
| ExecutionCore.ExecutionCore.CloseAttemptChildren | src/execution.rs:778-799 | takes exactly the attempt's children, in order, and shuts it if current |
| ExecutionCore.ExecutionCore.CloseChildren | src/execution.rs:741-753 | shuts admission for good and takes every child |
| ExecutionCore.ExecutionCore.SpawnChild | src/execution.rs:1354-1399 | tracks a child only for the current open attempt and within the limit, with the error otherwise |
| DamTheorems.HandledOnce | src/dam.rs:523-602 | an execution is told of its interruption at most once; one the worker is done with reached its loop and was told exactly if it left the loop interrupted, or never began an attempt, was told exactly once and lay below a cancel |
| DamTheorems.FlaggedLoopIsTold | src/dam.rs:337-487 | an execution flagged in its attempt loop has been told exactly once when the worker is done with it, unless the loop panicked or had no attempts |
| DamTheorems.LoopDecides | src/dam.rs:337-602 | what each check, attempt, panic and restart does to the loop and to the callback, with the flag and without it |
| DamTheorems.FinishedMeansAttempted | src/dam.rs:337-487 | an execution whose loop finished began at least one attempt |
| DamTheorems.CancelReachesOlderTasks | src/dam.rs:223-230 | after a cancel returned, a stamp below its snapshot begins at most the attempt already past its check, and if not yet in its loop never begins and is told exactly once |
| DamTheorems.CancelSparesLaterTasks | src/dam.rs:195-219 | a stamp taken after all cancels returned is never flagged, told or dropped by them |
| DamTheorems.NextTaskIsSpared | src/dam.rs:195-230 | in every reachable state without a release, no continuation without further cancels flags the next stamp, if and only if every cancel so far has returned |
| DamTheorems.CancelMayFlagLaterTask | src/dam.rs:223-230 | the failing half: wherever a cancel is still under way, some continuation has it flag the next stamp, which is not below its snapshot |
| DamTheorems.ReleaseStopsEverything | src/dam.rs:234-256 | after a release nothing enters its attempt loop, whatever was enqueued |
| DamTheorems.StepKeeps | src/dam.rs:195-602 | every step of every actor keeps the dam invariant |
| Dam.CancelIsThreeSteps | src/dam.rs:223-230 | an uninterrupted cancel is its snapshot, raise and flag steps |
| Dam.Dam.Enqueue | src/dam.rs:195-215 | stamps before sending, with a counter that wraps; a released or full dam refuses |
| Dam.Dam.CancelAll | src/dam.rs:223-230 | raises the watermark to the stamps handed out and flags the current execution |
| Dam.Dam.Release | src/dam.rs:234-256 | raises the watermark past every stamp, flags the current execution and closes the channel |
| Dam.Dam.NotifyInterrupt | src/dam.rs:88-93 | flags the execution and calls back on the first call only |
| Dam.Dam.FirstLook | src/dam.rs:530-537 | drops a received execution below the watermark with one notification |
| Dam.Dam.PublishCurrent | src/dam.rs:539-544 | makes the execution visible to cancellers |
| Dam.Dam.SecondLook | src/dam.rs:546-553 | closes the hand-off window by looking again after publication |
| Dam.Dam.ClearCurrent | src/dam.rs:598-601 | empties the current slot, and the worker is done with the execution |
| LegacyLoops.OneAttemptAfterFlag | src/dam.rs:337-487 | of two attempts only the later can begin after the first check that sees the flag |
| LegacyLoops.RunTimeInterval | src/dam.rs:337-365 | checked attempts, each but the last asking for another, end in one justified callback; sleeps follow the intervals; three checks precede the first attempt and four lie between attempts |
| LegacyLoops.RunRangeInterval | src/dam.rs:371-413 | checked attempts end in one justified callback, or none if there are no attempts; each sleep is the delay of the last range containing the failed attempt; the missing-delay error is unreachable; the checks before each attempt are counted |
| LegacyLoops.RunFixedCount | src/dam.rs:419-452 | checked attempts, without sleeps and with two checks before each, end in one justified callback, or none if there are no attempts |
| LegacyLoops.RunPeriodic | src/dam.rs:457-487 | checked attempts with an equal sleep after each, and before the first if asked for, ended only by completion or interruption |
| ScopeTheorems.NumbersIncrease | src/scope.rs:169-187 | generation numbers strictly increase and are never shared |
| ScopeTheorems.MismatchUnreachable | src/scope.rs:496-519 | a supervisor that switches always holds the last ticket, so `Failed` is unreachable and rotations never overlap |
| ScopeTheorems.ShutForever | src/scope.rs:376-384 | a generation left behind, or of a closed scope, admits nothing ever again |
| ScopeTheorems.StrictRotationSeparates | src/scope.rs:469-520 | executions of different generations are never live together in any run if and only if all rotations are strict |
| ScopeTheorems.StepKeeps | src/scope.rs:143-520 | every event keeps the scope invariant |
| ScopeState.Scope.RotateTo | src/scope.rs:143-191 | shuts the current generation, reserves the next number and ticket, or fails without change |
| ScopeState.Scope.EndRotation | src/scope.rs:491-519 | switches, cancels or fails by ticket and cancellation |
| ScopeState.Scope.TrySpawn | src/scope.rs:293-310 | admits and tracks only under the open current generation |
| ScopeState.Scope.CloseScope | src/scope.rs:222-230 | closes the scope and its current generation |
| SlotTheorems.RevisionNeverDecreases | src/slot.rs:184-208 | revision and transaction never decrease, and closing is final |
| SlotTheorems.CurrentChangesHands | src/slot.rs:309-348 | the current execution changes only by the newest transaction publishing its own, by its own monitor after it ended, or by closing |
| SlotTheorems.ClosedForever | src/slot.rs:234-259 | a closed slot never has a current execution again and spawns nothing |
| SlotTheorems.StrictWaits | src/slot.rs:274-298 | a strict transaction spawns only after the execution it replaces is terminal, and what is current then is that execution |
| SlotTheorems.StrictMeansOnePublished | src/slot.rs:262-349 | with strict transactions only, at most one published execution is live and it is the current one of an open slot |
| SlotTheorems.RequestKeepsOneInstance | src/slot.rs:184-324 | after a strict request no continuation without further requests has two live executions, if and only if the request found no live unpublished execution |
| SlotTheorems.StrictMeansOneInstance | src/slot.rs:284-324 | a slot has at most one live execution in every run whose strict requests find no live unpublished one |
| SlotTheorems.UnpublishedIsNotAwaited | src/slot.rs:295-324 | the failing half: in every reachable state with a live unpublished execution, a strict request can lead to a second live execution |
| SlotTheorems.RepeatedRequest | src/slot.rs:184-201 | in every run, a repeated revision never changes the slot; it conflicts exactly with another specification, and otherwise names the execution of the newest transaction exactly if that has published |
| SlotTheorems.RepeatNamesThePredecessor | src/slot.rs:190-199 | the failing half: a revision asked for again before it has published is answered with the execution it replaces |
| SlotTheorems.SupersededForGood | src/slot.rs:274-324 | a transaction that has not published when a newer request is accepted never publishes and spawns nothing more |
| SlotTheorems.NewestTries | src/slot.rs:274-304 | the newest transaction of an open slot tries again when the lane is full, ends when refused and spawns when admitted |
| SlotTheorems.StaleCurrent | src/slot.rs:334-347 | a monitor clears its current execution exactly if no newer transaction was accepted |
| SlotTheorems.StaleCurrentRemains | src/slot.rs:284-347 | a finished execution can stay current for good when the newer transaction is refused |
| SlotTheorems.StepKeeps | src/slot.rs:155-349 | every event keeps the slot invariant |
| SlotState.TaskSlot.Replace | src/slot.rs:155-217 | which condition on closed, current, revision, specification and sequence gives each of the eight answers, and acceptance as the only change |
| SlotState.TaskSlot.PublishExecution | src/slot.rs:309-324 | publishes unless superseded |
| SlotState.TaskSlot.ClearFinished | src/slot.rs:336-346 | clears only its own execution of the newest transaction |
| SlotState.TaskSlot.CloseSlot | src/slot.rs:234-259 | closes, supersedes every transaction and returns what was current |
| Schedule.DurationRoundTrip | src/recurring.rs:891-896 | nanosecond counts and durations correspond one to one, failing exactly beyond 64-bit seconds |
| Schedule.SkipLandsOnGrid | src/recurring.rs:826-848 | skipping lands on the least grid point after now and counts the points from target through now; its advance cannot overflow 128 bits |
| Schedule.LateTickSkips | src/recurring.rs:800-849 | a late skipping task runs at the least anchor + m * interval after now, failing exactly beyond the counter or the clock |
| Schedule.FixedRateKeepsGrid | src/recurring.rs:800-849 | fixed-rate ticks stay on the anchor's grid, report missed points exactly when late, one of them in a burst, and fail only beyond the clock |
| Schedule.OnTimeTick | src/recurring.rs:800-815 | a tick that is not late runs at its grid point, and each overflow error has its own range of targets |
| Schedule.DelayWaitsFullInterval | src/recurring.rs:791-824 | fixed delay and delayed late ticks run a whole interval after the last one finished, failing exactly beyond the clock; a task resumed to run immediately runs now |
| Schedule.StepsWaitTheirDelay | src/recurring.rs:850-887 | stepped plans use the delay of their position, repeat the last or end; dynamic plans wait what was chosen or end |
| Schedule.SkippingStaysLate | src/recurring.rs:782-849 | after a skip the next tick is late again and reports at least as many missed points |
| RestartBudget.SlidingWindow | src/recurring.rs:578-596 | every closed interval as long as the window contains at most the maximum of admitted restarts |
| RestartBudget.RefusedOnlyWhenFull | src/recurring.rs:586-590 | a restart is refused exactly when it would exceed the budget of its window |
| RestartBudget.BudgetIsKept | src/service.rs:739-771 | whatever calls were made, a valid deque has kept every window within the budget |
| RestartBudget.RestartWindow.Trim | src/service.rs:751-756 | drops exactly the leading restarts that have left the window |
| RestartBudget.RestartWindow.HasRoom | src/service.rs:750-759 | room is left exactly if fewer than the maximum were admitted in the closed window ending now |
| RestartBudget.RestartWindow.Record | src/service.rs:770 | appends the admitted restart |
| RestartBudget.AdmitPanicRestart | src/recurring.rs:578-591 | a panicked tick restarts exactly if its window has room |
| RestartBudget.AdmitRestart | src/service.rs:739-782 | admitted exactly if the window has room, the service is not cancelled, the counter is below its 32-bit maximum and the backoff was slept; overflow and the recorded restart have their exact conditions too |
| RestartBudget.RunService | src/service.rs:451-711 | the first generation that is not restarted decides the exit; generation is admitted restarts plus one, so the generation overflow is unreachable; each generation whose factory returned is closed before the next begins, and one whose factory panicked is never closed |
| RestartBudget.HowServicesEnd | src/service.rs:497-711 | a service finishes exactly with a generation that returned or panicked without a policy for it, and exceeds its limit exactly with one whose restart met a full window or a cancelled service |
| Backoff.ExponentialClosedForm | src/retry.rs:395-410 | capping at each step equals `min(base * m^k, cap)` |
| Backoff.ExponentialNeverDecreases | src/retry.rs:395-410 | exponential delays never decrease and stay within the cap |
| Backoff.XorShiftKeepsNonZero | src/retry.rs:434-436 | the jitter stream is zero exactly if it started at zero |
| Backoff.JitterBounds | src/retry.rs:426-444 | a jittered delay stays within its ratio of the base before the cap, and fails only beyond the longest duration |
| Backoff.JitterSpreads | src/retry.rs:426-444 | jitter moves a delay linearly over its ratio with the position's random share, capped once, failing exactly when the result is no duration |
| Backoff.UnitIsShare | src/retry.rs:437 | the random share is the state over the largest 64-bit number |
| Backoff.XorShiftOfOne | src/retry.rs:434-436 | the first state of the stream of seed 1 |
| Backoff.DelayIter.NextBase | src/retry.rs:380-409 | yields the base delay of its position and advances |
| Backoff.DelayIter.Next | src/retry.rs:426-444 | yields the delays of the plan in order and then nothing |
| Backoff.Build | src/retry.rs:252-308 | accepts exactly the backoffs and jitters all of whose delays are durations |
| Retry.BuildRetry | src/retry.rs:636-689 | exactly which retries are accepted, timeouts beyond the clock included, and that an accepted one is validated |
| Retry.Decide | src/retry.rs:843-911 | exactly which outcomes, answers of the predicate and attempt numbers lead to another attempt, and which exit each of the others gives |
| Retry.RunAttempt | src/retry.rs:807-955 | one attempt from its checks to its sleep: exactly when the factory is called, when the delay is slept, and which exit a deadline, a stop, the outcome or a failed sleep gives |
| Retry.RunRetry | src/retry.rs:795-955 | the first attempt that is late or stopped, or whose outcome or sleep ends the retry, decides the exit, and all before it were retried; attempts are closed before the next begins, delays slept in plan order, the right error reported, internal-error exits unreachable |

## Left out

- Tokio's scheduling, timers, real clocks, panics and their messages: environment choices.
- Lock poisoning, logging, tracing, event broadcast, error texts and the executor registry: no hard
  property; the registry is not claimed to mirror the lane.
- The slot's wait for lane capacity, and eventual delivery of the dispatcher's notifications: safety
  only (`DispatcherNotForgotten` says that a needed notification is never missing).
- LaneTheorems.StarvationBound: covers entries without an ordering key; a keyed entry waits as long as its
  key is held, and is bounded by the dispatches that find it free (`ReadyStarvationBound`).
- LaneTheorems.NoLostWakeup: speaks of states, not of eventual delivery, which depends on the runtime.
- Several notifications for one waiter merge into one permit, which is weaker than the runtime's queue.
- ExecutionTheorems.ChildrenBeforeParent: excludes the path where the runner is dropped, on which the
  guard commits without waiting for children.
- Dropping the runner ends the body in the model (`GuardDrops`); in the source it only detaches the
  spawned body, which may still begin attempts before it ends.
- Cleanup progress, resume epochs, queued-cancel hooks and ancestor paths of executions.
- Recursive cancellation of descendant scopes, and the would-join refusal beyond being an answer.
- Cancellation requests that scopes and slots send to their executions: only the waits for their end
  are modelled, so an execution may also ignore the request.
- A service without a restart policy, whose restarts are all refused.
- The runs of the dam stop before its stamp counter wraps, after 2^64 stamps; `Enqueue` states the wrap.
- LegacyLoops.RunPeriodic: models the loop until the answers given run out; restarts after a panic are
  steps of `DamSystem`.
- Backoff.JitterBounds: floating-point rounding is not modelled; seconds are real numbers.
- Fixed-delay, step and dynamic plans: part of `NextTarget`, but no property beyond it is stated.
- Jitter of recurring schedules and resume during a sleep, and the rest of the recurring loop around
  the next target and the restart window.
- Wall-clock deadlines of retries and attempt timeouts: what they decide is part of the script.
- Builders, listeners, shutdown reports, observation and the executor front end: wiring and validation.
