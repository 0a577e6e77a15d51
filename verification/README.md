# Nomad's evaluation machinery, verified

A Dafny model of the parts of Nomad that decide what work a scheduler gets, when blocked
work wakes up, what is deleted, and what runs again:

- **The evaluation broker** (`nomad/eval_broker.go`): an at-least-once queue of evaluations
  with one live evaluation per job, a priority heap per scheduler, delivery tokens, Ack and
  Nack, Nack timers, a delivery limit, a failed queue and requeueing on Ack.
- **The blocked tracker** (`nomad/blocked_evals.go`): evaluations that wait for capacity, and
  the protocol between `Unblock`, its channel and `Block` that must not lose a wakeup;
  composed with the broker into one system.
- **The core scheduler's garbage collection** (`nomad/core_sched.go`): eligibility, batching
  and the order of the deletions.
- **The periodic dispatcher** (`nomad/periodic.go`) and **the client's allocation collector**
  (`client/gc.go`): indexed heaps whose entries record their own slot, the launch schedule
  built on one and the eviction loops built on the other, launch IDs, and the channel that
  bounds concurrent destroys.
- **The restart tracker** (`client/restarts.go`): a timed state machine with rate bounds.

## How it is built

Each critical section is one atomic step. Where the source updates an object, there are two
layers. A *model* module has the state as a value and one function per critical section, so
that lemmas can speak about whole runs. An *object* module has a class with the source's
fields and methods, its loops and its branches, and every method is proved to take the
model's step. Timers, channels and goroutines become steps that may or may not be taken;
random choices, clock readings and generated tokens are parameters.

- Heaps: `GoHeap` (the algorithms of Go's `container/heap` on slices), `IndexedHeap`
- Broker: `Evaluations`, `Sums`, `BrokerModel`, `BrokerInvariant`, `BrokerSteps`,
  `BrokerRuns`, `BrokerTheorems`, `BrokerEdges`, `BrokerUnacked`, `BrokerHandoff`,
  `BrokerCallbacks`, `BrokerOrder`, `EvalBroker`
- Tracker and system: `BlockedModel`, `BlockedRuns`, `BlockedTheorems`, `BlockedHandoff`,
  `BlockedKept`, `BlockedCommute`, `BlockedEvals`
- Garbage collection: `CoreModel`, `CoreTheorems`, `CoreScheduler`
- The rest: `Periodic` (`PeriodicModel`, `PeriodicObject`), `LaunchID`, `AllocGC` (with
  `DestroyLimit`), `Restarts` (`RestartModel`, `RestartTheorems`, `RestartObject`)

The broker's invariant rests on a *ledger*, a map that gives every known evaluation exactly
one place. It is only a witness: `Consistent(b)` says that some ledger explains the seven
maps, the heaps and the counters, and `BrokerRuns.RunsKeepInvariant` shows it for every
state that any run of legal steps reaches (`Reachable`). What a run may assume of its
environment is written in the predicate `Legal` of each run module:

- evaluations have a non-empty ID and an ordinary type, and tokens are new;
- wait timers fire only while they are registered, with the evaluation they were registered
  for, and a disabled broker is not offered an evaluation that has to wait.
  `BrokerCallbacks.WaitCallbackAgreesIff` says of every callback, late ones included, and
  `BrokerEdges.OfferAgreesIff` of every offer exactly when the structures stay in agreement;
- the delivery limit is at least one, which `BrokerEdges.CrashFreeIff` shows to be exactly
  the condition under which Ack and Nack never dereference a missing entry;
- disabling a broker or tracker and flushing it is one step; Raft indexes do not decrease
  (`BlockedTheorems.RecordForgetsIff` shows what happens otherwise); an evaluation ID names
  one job.

Where a property that the code or its comments promise does not hold, the model follows the
code and says exactly when it does:

- `scanForSchedulers` is documented to dequeue the highest priority first
  (`nomad/eval_broker.go:314-315`), but `Peek` reads the last slot of a heap
  (`nomad/eval_broker.go:763-769`). `BrokerEdges.ScanIsRightIff` gives the condition on last
  slots and roots under which the scan is right, `BrokerEdges.ScanMissesHighestPriority` a
  run that reaches a broker for which it is not. Inside one queue the order is always right
  (`BrokerTheorems.DequeueTakesTheBest`).
- An evaluation that the tracker hands over while its own delivery is outstanding is held
  until that delivery is settled. But Ack and Nack delete what is held under the token they
  are given even when they fail (`nomad/eval_broker.go:487` and
  `nomad/eval_broker.go:546`), so a failing attempt that names the token drops it.
  `BlockedHandoff.ReleasedCanBeDropped` is a run that loses an evaluation this way, and
  `BlockedHandoff.AckedIsKnownIff` says over all runs when the broker still knows it.
- `Nack` takes a failed-queue delivery off the counter of the evaluation's own type
  (`nomad/eval_broker.go:565-566`). The per-scheduler counts of outstanding evaluations are
  exact if and only if no such delivery was rejected since the last flush
  (`BrokerUnacked.UnackedExactIff`); their sum is always right.
- `handleStartError` is documented to treat every policy as fail mode
  (`client/restarts.go:146-149`), but honours the mode (`client/restarts.go:157-167`).
  `RestartTheorems.StartErrorFailsIff` says when the comment is right, and
  `RestartTheorems.DelayModeNeverStops` what happens otherwise.
- A periodic dispatch may write back a job that was updated while the launch loop waited;
  `PeriodicModel.DispatchKeepsJobsIff` gives the exact condition. The keys agree always.

## Model

| member | source | states |
|---|---|---|
| `GoHeap.SiftUp` | nomad/eval_broker.go:243-244 | the sift-up loop that heap.Push runs computes `Up`, whose effect is stated by `PushCorrect` |
| `GoHeap.SiftDown` | nomad/eval_broker.go:377-378 | the sift-down loop that heap.Pop runs computes `Down`, whose effect is stated by `PopCorrect` |
| `GoHeap.PushCorrect` | nomad/eval_broker.go:259-260 | for any strict weak order: pushing onto a heap gives a heap with exactly one more element |
| `GoHeap.PopCorrect` | nomad/eval_broker.go:374-379 | for any strict weak order: popping returns the root and leaves a heap of exactly the other elements |
| `GoHeap.FixCorrect` | nomad/periodic.go:520-530 | repairing from one misplaced slot gives a heap that is a permutation |
| `GoHeap.DetachCorrect` | nomad/periodic.go:532-540 | removing slot i returns that element and leaves a heap of exactly the others |
| `GoHeap.RootIsLeast` | nomad/periodic.go:507-513 | no element of a heap comes before the root |
| `GoHeap.PushSlice` | nomad/eval_broker.go:748-751 | append and sift up, computing `Push` |
| `GoHeap.PopSlice` | nomad/eval_broker.go:753-760 | exchange, sift down and cut, computing `PopTop` and `PopRest` |
| `Evaluations.LessIsNotTransitive` | nomad/eval_broker.go:736-741 | three evaluations that cycle under the comparator |
| `Evaluations.LessIsWeakOrder` | nomad/eval_broker.go:736-741 | on evaluations of distinct jobs, or of one job, the comparator is a strict weak order |
| `Evaluations.RootOfReadyQueue` | nomad/eval_broker.go:733-741 | the root of a heap of distinct jobs has the highest priority, then the lowest create index |
| `Evaluations.RootOfBlockedQueue` | nomad/eval_broker.go:733-741 | the root of a heap of one job has the lowest create index |
| `BrokerSteps.ProcessEnqueueConsistent` | nomad/eval_broker.go:184-276 | enqueueing keeps all maps, heaps and counters in agreement |
| `BrokerSteps.EnqueueWaitingConsistent` | nomad/eval_broker.go:222-228 | so does the callback of a registered wait timer |
| `BrokerSteps.DequeueConsistent` | nomad/eval_broker.go:374-407 | so does a delivery, and the entry of its queue exists |
| `BrokerSteps.AckConsistent` | nomad/eval_broker.go:481-537 | so does Ack with its promotion and requeueing, and it finds the per-scheduler entry |
| `BrokerSteps.NackConsistent` | nomad/eval_broker.go:540-585 | so does Nack in each of its three ways of putting the evaluation back, and it finds the entry |
| `BrokerSteps.ArmConsistent` | nomad/eval_broker.go:464-478 | so does arming or disarming a Nack timer |
| `BrokerSteps.SetEnabledConsistent` | nomad/eval_broker.go:143-150 | so does enabling, and disabling with the flush that follows |
| `BrokerRuns.RunsKeepInvariant` | nomad/eval_broker.go:143-668 | every state of every legal run is consistent and explained by its log of acceptances, deliveries, settlements and flushes |
| `BrokerTheorems.ExactlyOnePlace` | nomad/eval_broker.go:184-276 | each ID in `evals` occupies exactly one slot among timeWait, unack, all ready heaps and all blocked heaps; any other ID occupies none |
| `BrokerTheorems.OnlyAckForgets` | nomad/eval_broker.go:513-516 | only a successful Ack of that evaluation, or a flush, removes an ID |
| `BrokerTheorems.JobsAreSerialized` | nomad/eval_broker.go:237-247 | over all ready heaps and unack there is at most one evaluation per job, the one `jobEvals` names |
| `BrokerTheorems.NoneIsStranded` | nomad/eval_broker.go:518-529 | a job with blocked evaluations has an owner that is ready, outstanding or waiting on a timer |
| `BrokerTheorems.DequeueTakesTheBest` | nomad/eval_broker.go:374-379 | a delivery is the highest priority of its queue, then the lowest create index |
| `BrokerTheorems.DeliveryIsRight` | nomad/eval_broker.go:374-407 | a delivery takes an evaluation of its queue that no other one there precedes in priority and then create index; it alone leaves the queue, and it is outstanding under the token with an armed timer and one more delivery |
| `BrokerTheorems.OfferGoesTo` | nomad/eval_broker.go:198-260 | an unknown evaluation waits on a timer if it has to, otherwise claims its job and is ready under its type, or is blocked if the job has an owner |
| `BrokerTheorems.KnownOfferIs` | nomad/eval_broker.go:185-200 | a known one is kept for requeueing if and only if it comes with the token of its own outstanding delivery; nothing else changes |
| `BrokerTheorems.AckPromotesTheOldest` | nomad/eval_broker.go:518-529 | after Ack the blocked evaluation of the job with the lowest create index is live and owns the job |
| `BrokerTheorems.CountersAreExact` | nomad/eval_broker.go:262-269 | the four totals equal the sizes, each Ready counter its heap's length, and the Unacked counters sum to TotalUnacked |
| `BrokerTheorems.AcceptedOnceUntilAcked` | nomad/eval_broker.go:184-200 | over every run since the last flush, acceptances less acknowledgements of an ID is 1 while it is known and 0 otherwise |
| `BrokerTheorems.DeliveriesAreBounded` | nomad/eval_broker.go:396-397 | since it was accepted, an evaluation is handed out by ordinary queues at most deliveryLimit times |
| `BrokerTheorems.FailedDeliveries` | nomad/eval_broker.go:505-511 | an outstanding evaluation's count exceeds the limit exactly when the failed queue handed it out |
| `BrokerTheorems.BlockedIsFresh` | nomad/eval_broker.go:241-247 | a blocked evaluation has a delivery count of zero |
| `BrokerTheorems.TokensSettleOnce` | nomad/eval_broker.go:481-585 | over every run a token is delivered at most once and settled at most once, by Ack or Nack |
| `BrokerTheorems.RequeueKeysAreOutstanding` | nomad/eval_broker.go:191-196 | since the last flush, a requeue key is the token of an outstanding evaluation with the same ID |
| `BrokerTheorems.SettlesIff` | nomad/eval_broker.go:489-502 | Ack succeeds if and only if the ID is outstanding under the token with its timer armed, Nack if and only if it is outstanding under the token |
| `BrokerTheorems.AnswersAre` | nomad/eval_broker.go:464-633 | each answer of Ack, Nack, OutstandingReset, PauseNackTimeout and ResumeNackTimeout, from what is outstanding under the ID, its token and its timer |
| `BrokerTheorems.TimersAre` | nomad/eval_broker.go:464-633 | the last three arm or disarm the timer of a delivery outstanding under the token, and change nothing else |
| `BrokerTheorems.PauseAndResume` | nomad/eval_broker.go:603-633 | pausing succeeds if and only if the timer was armed, and never twice; a paused delivery cannot be acknowledged; resuming restores the broker if and only if the timer was armed; a reset makes the delivery acknowledgeable again |
| `BrokerTheorems.DeliveredPausesOnce` | nomad/eval_broker.go:392-617 | right after a delivery a pause succeeds and a second one reports an expired timer |
| `BrokerTheorems.NackDelayCompounds` | nomad/eval_broker.go:589-599 | the first rejection waits the initial delay, the second the subsequent delay, and each one after that adds the subsequent delay once more |
| `BrokerEdges.OfferAgreesIff` | nomad/eval_broker.go:198-206 | an offer keeps the agreement if and only if the broker is enabled or the evaluation does not wait |
| `BrokerCallbacks.WaitCallbackAgreesIff` | nomad/eval_broker.go:222-228 | whenever and with whatever contents a wait callback runs, it keeps the agreement if and only if a timer is registered under its ID for which its evaluation can stand in: of an ordinary type, and of the same job if the registered one owns its job |
| `BrokerCallbacks.RegisteredStandsIn` | nomad/eval_broker.go:213-219 | the registered evaluation itself always can |
| `BrokerEdges.CrashFreeIff` | nomad/eval_broker.go:505-511 | no run of Ack and Nack meets a missing per-scheduler entry if and only if the delivery limit is at least one |
| `BrokerEdges.ScanFinds` | nomad/eval_broker.go:325-352 | a scan finds exactly the queues with work whose last slot has the highest priority, and nothing only if there is no work |
| `BrokerEdges.ScanIsRightIff` | nomad/eval_broker.go:325-369 | whatever the scan chooses delivers the highest priority of all listed queues if and only if every queue whose last slot is highest also has the highest root |
| `BrokerEdges.ScanMissesHighestPriority` | nomad/eval_broker.go:335-351 | under every configuration a run reaches a broker whose scan takes the queue with the lower priority |
| `BrokerUnacked.NackKeepsExactIff` | nomad/eval_broker.go:563-566 | one Nack keeps each per-scheduler count of outstanding evaluations exact if and only if the delivery was within the limit |
| `BrokerUnacked.UnackedExactIff` | nomad/eval_broker.go:563-566 | in every reachable state the failed queue's count is too high by the number of its deliveries rejected since the last flush, and all counts are exact if and only if there was none |
| `BrokerUnacked.FailedNackDrifts` | nomad/eval_broker.go:563-571 | under every delivery limit, a run with exact counts that the rejection of a failed-queue delivery makes wrong |
| `BrokerUnacked.DeliveryKeepsExact` | nomad/eval_broker.go:399-404 | a delivery keeps those counts exact |
| `BrokerUnacked.AckKeepsExact` | nomad/eval_broker.go:504-511 | so does Ack |
| `BrokerHandoff.OfferHolds` | nomad/eval_broker.go:191-196 | an evaluation offered under the token of its own outstanding delivery is held for requeueing |
| `BrokerHandoff.HeldThroughAck` | nomad/eval_broker.go:485-487 | an Ack or Nack leaves it held if and only if it names another token |
| `BrokerHandoff.HoldsNextIff` | nomad/eval_broker.go:184-200 | while the delivery stays outstanding, something is held after a step if and only if the step offers it, or it was held and the step does not name the token |
| `BrokerHandoff.PausedAckDrops` | nomad/eval_broker.go:485-502 | from any state with a held evaluation: pause, a failing Ack and resume, after which a successful Ack forgets the evaluation |
| `BrokerHandoff.StrayNackDrops` | nomad/eval_broker.go:544-552 | so does a failing Nack under the token for another evaluation |
| `BrokerHandoff.HeldUntilSettled` | nomad/eval_broker.go:485-546 | the case in which nothing names the token and nothing is flushed: the evaluation stays held and its delivery outstanding; the other cases are in `BlockedHandoff.HeldIff` |
| `BrokerHandoff.AckedStaysKnownIff` | nomad/eval_broker.go:531-534 | after a successful Ack the ID is still known if and only if an evaluation was held under the token |
| `BrokerHandoff.AckedTakesHeld` | nomad/eval_broker.go:531-534 | and it is the held evaluation that takes its place |
| `BrokerHandoff.NackedStaysKnown` | nomad/eval_broker.go:568-582 | after a successful Nack the original evaluation waits or is ready again |
| `EvalBrokerObject.EvalBroker.Create` | nomad/eval_broker.go:110-132 | a negative Nack timeout is refused, otherwise the new broker is disabled and empty |
| `EvalBrokerObject.EvalBroker.ProcessEnqueue` | nomad/eval_broker.go:184-209 | deduplicate, hold for requeueing, wait or enqueue: the model's step |
| `EvalBrokerObject.EvalBroker.EnqueueAll` | nomad/eval_broker.go:169-178 | the loop is the fold of the single enqueues; it keeps the broker consistent under the condition of `OfferAgreesIff` |
| `EvalBrokerObject.EvalBroker.ProcessWaitingEnqueue` | nomad/eval_broker.go:213-219 | register the wait timer and count it |
| `EvalBrokerObject.EvalBroker.EnqueueWaiting` | nomad/eval_broker.go:222-228 | the wait callback; it keeps a consistent broker consistent exactly under the condition of `WaitCallbackAgreesIff` |
| `EvalBrokerObject.EvalBroker.EnqueueLocked` | nomad/eval_broker.go:231-276 | claim the job, or block behind its owner, or join the ready heap |
| `EvalBrokerObject.EvalBroker.ScanForSchedulers` | nomad/eval_broker.go:325-352 | the scan loop computes the eligible queues characterised by `ScanFinds` |
| `EvalBrokerObject.EvalBroker.TryDequeue` | nomad/eval_broker.go:316-370 | nothing and no change, or a delivery as `DeliveryIsRight` has it from the chosen eligible queue, which is one of those asked for |
| `EvalBrokerObject.EvalBroker.DequeueForSched` | nomad/eval_broker.go:374-407 | the delivery that `DeliveryIsRight` characterises, keeping the broker consistent |
| `EvalBrokerObject.EvalBroker.OutstandingReset` | nomad/eval_broker.go:464-478 | the timer is armed again in any case; the answer tells an unknown ID, another token and an expired timer apart |
| `EvalBrokerObject.EvalBroker.PauseNackTimeout` | nomad/eval_broker.go:603-617 | the timer is stopped; for a delivery outstanding under the token the answer is success if and only if the timer was armed |
| `EvalBrokerObject.EvalBroker.ResumeNackTimeout` | nomad/eval_broker.go:621-633 | the timer is armed again; the answer tells an unknown ID and another token apart |
| `EvalBrokerObject.EvalBroker.Ack` | nomad/eval_broker.go:481-537 | the answer from what is outstanding, its token and its timer, and the whole new state, keeping the broker consistent; no missing entry is met |
| `EvalBrokerObject.EvalBroker.Nack` | nomad/eval_broker.go:540-585 | the answer from what is outstanding and its token, and the whole new state, keeping the broker consistent; no missing entry is met |
| `EvalBrokerObject.EvalBroker.Flush` | nomad/eval_broker.go:636-668 | everything but the requeue map is cleared |
| `EvalBrokerObject.EvalBroker.SetEnabled` | nomad/eval_broker.go:143-150 | the switch and, on disabling, the flush |
| `BrokerOrder.EnqueueAllOrder` | nomad/eval_broker.go:169-178 | two orders of one batch of distinct evaluations of distinct jobs leave brokers that agree on everything but the order of heap slots |
| `BlockedModel.BlockKeeps` | nomad/blocked_evals.go:147-207 | blocking keeps captured and escaped disjoint, one evaluation per job, and the counters |
| `BlockedModel.UnblockKeeps` | nomad/blocked_evals.go:320-368 | so does releasing a class |
| `BlockedModel.UnblockFailedKeeps` | nomad/blocked_evals.go:372-403 | so does releasing failed evaluations |
| `BlockedModel.UntrackKeeps` | nomad/blocked_evals.go:250-279 | so does untracking, after which the job has no blocked evaluation |
| `BlockedRuns.RunsKeepInvariant` | nomad/blocked_evals.go:112-452 | every state of every interleaving of tracker, channel and broker keeps both invariants and the wakeup invariant |
| `BlockedTheorems.NoLostWakeup` | nomad/blocked_evals.go:284-316 | for each accepted Unblock and each tracked evaluation with an older snapshot that escaped, does not know the class or is eligible for it, an update able to release it is unsent, queued or being processed, across flushes too |
| `BlockedTheorems.DrainedIsCaughtUp` | nomad/blocked_evals.go:214-245 | with no update in flight, no tracked evaluation has missed an unblock: it has marked the class of every accepted one after its snapshot as ineligible |
| `BlockedTheorems.ProcessReleases` | nomad/blocked_evals.go:330-367 | processing an update releases a tracked evaluation if and only if it escaped, does not know the class or is eligible for it, and the enabled broker knows it afterwards |
| `BlockedTheorems.FailedReleases` | nomad/blocked_evals.go:381-402 | UnblockFailed releases a tracked evaluation if and only if it ran out of plan attempts, and the enabled broker knows it afterwards |
| `BlockedTheorems.BlockGoesTo` | nomad/blocked_evals.go:147-245 | a blocked evaluation is ignored, a duplicate, enqueued or tracked, each with its exact condition on the switch, the jobs, the recorded indexes and the evaluation's eligibility, and each with its effect |
| `BlockedTheorems.MissedIsKnown` | nomad/blocked_evals.go:172-183 | an evaluation that missed an unblock is known to the enabled broker at once, and held under its token if its own delivery is outstanding |
| `BlockedTheorems.RecordForgetsIff` | nomad/blocked_evals.go:293-297 | recording an index never forgets a missed unblock if and only if the index does not fall |
| `BlockedTheorems.OneTrackedPerJob` | nomad/blocked_evals.go:156-170 | in every run, two tracked evaluations of one job are the same, and `jobs` names it |
| `BlockedTheorems.TrackerCounters` | nomad/blocked_evals.go:186-206 | in every run TotalEscaped and TotalBlocked are the set sizes, and `jobs` maps onto exactly the tracked IDs |
| `BlockedTheorems.BlockGoesOneWay` | nomad/blocked_evals.go:147-207 | while enabled, an evaluation goes to exactly one of tracked, duplicates or broker, and an enabled broker knows it then |
| `BlockedTheorems.ReleasedIsHeld` | nomad/blocked_evals.go:360-367 | a released evaluation whose own delivery is outstanding is held under its token |
| `BlockedTheorems.HeldUntilSettled` | nomad/blocked_evals.go:176-182 | over any run of the whole system in which nothing names the token and nothing is flushed, it stays held; the other cases are in `BlockedHandoff.HeldIff` |
| `BlockedHandoff.HeldIff` | nomad/blocked_evals.go:176-182 | over any run that leaves the delivery outstanding, something is held at the end if and only if no Ack or Nack named the token after the last handover |
| `BlockedHandoff.AckedIsKnownIff` | nomad/eval_broker.go:485-534 | over any run up to a successful Ack, the broker knows the evaluation afterwards if and only if it was handed over and no failed Ack or Nack named the token after the last handover |
| `BlockedHandoff.NackedIsKnown` | nomad/eval_broker.go:568-582 | over any run up to a successful Nack, the original is to be delivered again |
| `BlockedHandoff.ReleasedCanBeDropped` | nomad/eval_broker.go:485-502 | under every configuration a run releases an evaluation into the broker and then loses it, without a flush or a rejection |
| `BlockedKept.NoWorkIsLost` | nomad/blocked_evals.go:147-403 | over every run of tracker and enabled broker, an evaluation that either of them has is tracked or known at the end, unless its job was untracked, it was successfully acknowledged or something was flushed |
| `BlockedCommute.DrainIsRun` | nomad/blocked_evals.go:284-316 | recording, sending, receiving and processing on an idle channel is a legal run with the stated effect |
| `BlockedCommute.BlockUnblockCommute` | nomad/blocked_evals.go:176-206 | for every order in which the two releases visit their maps, Block then Unblock and drain, and Unblock and drain then Block, are legal runs to the same tracker and channel and to brokers that agree but for the order of heap slots |
| `BlockedCommute.CommuteInOneOrder` | nomad/blocked_evals.go:176-206 | with the new evaluation visited last, the two systems are equal |
| `BlockedCommute.CommutingBatches` | nomad/blocked_evals.go:330-367 | the two orders release the same evaluations, but for the one that the second order enqueues itself |
| `BlockedCommute.MissedAfterRecord` | nomad/blocked_evals.go:214-245 | after an unblock newer than its snapshot, an evaluation has missed one if and only if it escaped, does not know the class or is eligible for it |
| `BlockedEvalsObject.ReleaseWhere` | nomad/blocked_evals.go:346-360 | one pass over a map: what is left, which jobs are left, and a batch listing each released evaluation once |
| `BlockedEvalsObject.BlockedEvals.constructor` | nomad/blocked_evals.go:89-101 | a new tracker is disabled and empty |
| `BlockedEvalsObject.BlockedEvals.MissedUnblock` | nomad/blocked_evals.go:214-245 | the loop with its early returns and maximum answers whether a class was unblocked after the snapshot that the evaluation escaped from, does not know or is eligible for |
| `BlockedEvalsObject.BlockedEvals.ProcessBlock` | nomad/blocked_evals.go:147-207 | the tracker's step and, for a missed unblock, the broker's, for every evaluation; both stay valid if the ID names one job and the broker may be offered it |
| `BlockedEvalsObject.BlockedEvals.Untrack` | nomad/blocked_evals.go:250-279 | the model's step, keeping the tracker valid |
| `BlockedEvalsObject.BlockedEvals.Unblock` | nomad/blocked_evals.go:284-303 | the index is recorded and the update to send is returned; nothing when disabled |
| `BlockedEvalsObject.BlockedEvals.UnblockClass` | nomad/blocked_evals.go:320-368 | what stays captured is exactly what marks the class as ineligible, nothing stays escaped, and the broker gets each of the others once with its token |
| `BlockedEvalsObject.BlockedEvals.UnblockFailed` | nomad/blocked_evals.go:372-403 | what stays is exactly what did not run out of plan attempts, and the broker gets each of the others once with its token |
| `BlockedEvalsObject.BlockedEvals.TakeDuplicates` | nomad/blocked_evals.go:411-416 | the duplicates are returned and cleared |
| `BlockedEvalsObject.BlockedEvals.Flush` | nomad/blocked_evals.go:438-452 | everything but the switch and the unblock indexes is cleared |
| `BlockedEvalsObject.BlockedEvals.SetEnabled` | nomad/blocked_evals.go:112-128 | the switch and, on disabling, the flush |
| `CoreTheorems.GcEvalIsExact` | nomad/core_sched.go:231-297 | where no lookup fails, an evaluation goes if and only if it and all its allocations are terminal and old and, for a batch evaluation, its job is gone, or dead and either stopped or being collected; the allocations listed are exactly its old ones; and the exact lookups that make it fail |
| `CoreTheorems.PartitionIsLossless` | nomad/core_sched.go:317-357 | concatenating the requests gives back both inputs, in order |
| `CoreTheorems.PartitionFills` | nomad/core_sched.go:317-357 | no request is over the limit or empty, and all but the last are exactly full |
| `CoreTheorems.AllocationsGoFirst` | nomad/core_sched.go:329-343 | at every prefix what was sent is a prefix of the inputs, and an evaluation was sent only if all allocations were |
| `CoreTheorems.PartitionIsMinimal` | nomad/core_sched.go:317-357 | no other way to send as many IDs within the limit takes fewer requests |
| `CoreTheorems.ChunksArePartition` | nomad/core_sched.go:516-540 | deployments are batched like evaluations without allocations |
| `CoreTheorems.EvalGcIsExact` | nomad/core_sched.go:198-223 | a completed evaluation GC deletes exactly the eligible evaluations, and exactly the old allocations of settled ones |
| `CoreTheorems.EvalGcFailsIff` | nomad/core_sched.go:205-208 | it is aborted if and only if a lookup that it needs fails |
| `CoreTheorems.LiveBatchIsKept` | nomad/core_sched.go:242-272 | with unique IDs, an evaluation GC deletes no evaluation or allocation of a batch job that exists and is not both dead and stopped, and no core job any of one that is not dead |
| `CoreTheorems.JobGcIsExact` | nomad/core_sched.go:98-139 | a job goes if and only if it is old, no lookup for it fails and each of its evaluations is eligible, whatever happens to other jobs |
| `CoreTheorems.JobGcDeletesExactly` | nomad/core_sched.go:98-147 | a completed job GC deletes exactly the evaluations of the jobs that go, and exactly their old allocations |
| `CoreTheorems.JobsGoIff` | nomad/core_sched.go:74-170 | a job is deregistered if and only if the lookup of jobs works and it may go |
| `CoreTheorems.NodeGcIsExact` | nomad/core_sched.go:387-421 | a node goes if and only if it is terminal and old and ran nothing that is not terminal |
| `CoreTheorems.NodesGoIff` | nomad/core_sched.go:360-444 | a node is deregistered if and only if the lookups work, it is terminal and old and ran nothing that is not terminal |
| `CoreTheorems.DeploymentGcIsExact` | nomad/core_sched.go:471-487 | a deployment goes if and only if it is inactive and old |
| `CoreTheorems.DeploymentsGoIff` | nomad/core_sched.go:447-496 | a deployment is deleted if and only if the lookup works and it is inactive and old |
| `CoreTheorems.JobGcIsSafe` | nomad/core_sched.go:149-167 | at every prefix of a job GC a deregistered job has no evaluation left, and no evaluation leaves an allocation behind |
| `CoreTheorems.ProcessIsSafe` | nomad/core_sched.go:39-71 | the same at every prefix of the requests of every core job, a forced GC included; deleted allocations were terminal and old, deregistered nodes quiet |
| `CoreTheorems.NodesGoLast` | nomad/core_sched.go:56-71 | a forced GC deregisters nodes after all its other requests |
| `CoreTheorems.ForceTakesAll` | nomad/core_sched.go:57-71 | a forced GC that gets to its end deletes and deregisters exactly what the four kinds do at the highest 64-bit index |
| `CoreTheorems.RequestsAreSmall` | nomad/core_sched.go:14-19 | every request of every core job has between 1 and 7281 IDs, as many 36-byte ones as fit 0.25 MB |
| `CoreTheorems.DeletedWasOld` | nomad/core_sched.go:282-293 | with unique allocation IDs, every allocation deleted by then was terminal with an index at or below the threshold |
| `CoreScheduler.CheckEval` | nomad/core_sched.go:231-297 | the branches and the scan of gcEval answer whether the evaluation is eligible, list exactly its old allocations if it is settled, and fail if and only if a needed lookup does |
| `CoreScheduler.PartitionEvalReap` | nomad/core_sched.go:317-357 | the loop terminates with the partition whose properties are above |
| `CoreScheduler.PartitionDeploymentReap` | nomad/core_sched.go:516-540 | the loop terminates with the chunks |
| `CoreScheduler.CollectEvals` | nomad/core_sched.go:173-224 | the requests of evalGC, none when a lookup fails |
| `CoreScheduler.CollectJobs` | nomad/core_sched.go:74-170 | the requests of jobGC: all reaps, then the deregistrations |
| `CoreScheduler.CollectNodes` | nomad/core_sched.go:360-444 | the deregistrations of nodeGC |
| `CoreScheduler.CollectDeployments` | nomad/core_sched.go:447-496 | the requests of deploymentGC |
| `CoreScheduler.Run` | nomad/core_sched.go:39-71 | the dispatch on the core job, and the forced sequence that stops at the first failure |
| `IndexedHeap.IndexedHeap.Exchange` | nomad/periodic.go:567-571 | a swap keeps each entry's record of its slot, the side map and the slice in agreement |
| `IndexedHeap.IndexedHeap.SiftUp` | nomad/periodic.go:490-493 | the sift-up loop on linked entries computes the slice algorithm and keeps the links |
| `IndexedHeap.IndexedHeap.SiftDown` | nomad/periodic.go:502-503 | the same for sift-down, with its report of whether it moved |
| `IndexedHeap.IndexedHeap.Push` | nomad/periodic.go:486-495 | on the map that the heap stands for: add a new key, or refuse an existing one and change nothing |
| `IndexedHeap.IndexedHeap.Pop` | client/gc.go:404-415 | remove and return a key with the earliest time, nothing if and only if empty |
| `IndexedHeap.IndexedHeap.Peek` | nomad/periodic.go:507-513 | the same without removal |
| `IndexedHeap.IndexedHeap.Update` | nomad/periodic.go:520-530 | replace the value and time of a known key, or refuse an unknown one |
| `IndexedHeap.IndexedHeap.Remove` | client/gc.go:417-428 | remove and return a known key, or report an unknown one |
| `IndexedHeap.IndexedHeap.Length` | client/gc.go:430-435 | the number of keys |
| `PeriodicModel.LaunchOrderIsWeak` | nomad/periodic.go:550-565 | the comparator that puts the zero time last is a strict weak order |
| `PeriodicModel.RunAgrees` | nomad/periodic.go:190-279 | after any run of Add, Remove, dispatch, enabling and flush the tracked jobs are exactly those with a launch time |
| `PeriodicModel.AddTracksIff` | nomad/periodic.go:199-218 | an enabled dispatcher tracks a job it is given if and only if it is periodic and enabled and not parameterized, or parameterized and already tracked; other jobs are untouched |
| `PeriodicModel.RemoveForgets` | nomad/periodic.go:253-279 | a removed job is neither tracked nor launched, all others are untouched, and a disabled dispatcher removes none |
| `PeriodicModel.DispatchSchedules` | nomad/periodic.go:337-343 | a dispatch gives its job, if tracked, the next launch time and changes nothing else |
| `PeriodicModel.DispatchKeepsJobsIff` | nomad/periodic.go:337-343 | a dispatch keeps the heap's jobs equal to the tracked ones if and only if its job is untracked or was not updated meanwhile |
| `PeriodicModel.DispatchCanBeStale` | nomad/periodic.go:337-343 | a run in which it was |
| `PeriodicModel.EarliestIsNextUp` | nomad/periodic.go:374-388 | the heap's minimum is the earliest launch among exactly the tracked jobs, the zero time standing for never |
| `PeriodicObject.PeriodicDispatch.Add` | nomad/periodic.go:190-241 | the model's step, and no error is ever returned |
| `PeriodicObject.PeriodicDispatch.Remove` | nomad/periodic.go:245-279 | the model's step, and no error is ever returned |
| `PeriodicObject.PeriodicDispatch.Dispatch` | nomad/periodic.go:337-343 | the heap has the next launch time of the job if it is tracked, and is unchanged otherwise |
| `PeriodicObject.PeriodicDispatch.NextLaunch` | nomad/periodic.go:374-388 | the next launch among exactly the tracked jobs, nothing if and only if none is tracked |
| `PeriodicObject.PeriodicDispatch.Flush` | nomad/periodic.go:457-465 | no job is tracked and the heap is new |
| `LaunchID.LaunchTimeRoundTrip` | nomad/periodic.go:436-454 | the launch time of a derived ID is the original cut to the second, whatever the parent's ID contains |
| `LaunchID.DerivedIDsDiffer` | nomad/periodic.go:436-438 | equal derived IDs have the same parent and the same second |
| `LaunchID.LaunchTimeIff` | nomad/periodic.go:442-454 | a time is returned if and only if the ID ends in the launch suffix, an optional sign and decimal digits whose value fits 64 bits, and it is that number of seconds |
| `AllocGC.EvictedOneMore` | client/gc.go:404-415 | evicting the earliest marked allocation keeps the order, and none is lost or evicted twice |
| `AllocGC.EvictionCount` | client/gc.go:213-231 | an eviction loop that stops within the limit or with nothing marked, and was over it before each eviction, stops at the first number that fits, however the number of running allocations changes |
| `AllocGC.SteadyCount` | client/gc.go:213-231 | with a steady number that is the excess over the limit, or everything marked |
| `AllocGC.ClearedAdds` | client/gc.go:293-294 | what an eviction loop counts as cleared is the sum of the victims' disk space |
| `AllocGC.AllocGarbageCollector.MarkForCollection` | client/gc.go:386-402 | a new allocation is marked with the time; a marked one keeps its own |
| `AllocGC.AllocGarbageCollector.Collect` | client/gc.go:181-188 | exactly the named allocation is taken, if it is marked |
| `AllocGC.AllocGarbageCollector.CollectAll` | client/gc.go:191-207 | the loop takes out every marked allocation, oldest first, unless shut down |
| `AllocGC.AllocGarbageCollector.MakeRoomFor` | client/gc.go:211-231 | the loop evicts the oldest, and unless shut down exactly the first number of them that brings the total within the limit or leaves nothing marked |
| `AllocGC.AllocGarbageCollector.FreeDisk` | client/gc.go:239-296 | in bytes: nothing is evicted when the host has more than is needed beside what is reserved; otherwise the oldest, each only while fewer bytes than needed are available or, without statistics, less was cleared, until enough are, unless shut down or nothing is left |
| `DestroyLimit.DestroysAreBounded` | client/gc.go:149-174 | over every run at most ParallelDestroys goroutines destroy at once (one if that is not positive), none blocks on leaving, a waiting one proceeds whenever there is room, and only a shutdown abandons one |
| `RestartTheorems.RestartsAreBounded` | client/restarts.go:125-133 | over every run under one policy at most Attempts restarts within the policy in the first interval, and at most one more in each later one |
| `RestartTheorems.BoundsAreReached` | client/restarts.go:125-133 | under every policy with attempts, each interval of some run has exactly as many restarts within the policy as the bound allows |
| `RestartTheorems.RateIsBounded` | client/restarts.go:125-133 | all restarts within the policy together are linear in the number of intervals, which the elapsed time bounds |
| `RestartTheorems.FailModeRefuses` | client/restarts.go:181-186 | once fail mode has refused a restart, no untriggered restart follows in that interval |
| `RestartTheorems.TerminatedIff` | client/restarts.go:114-144 | an answer is terminated if and only if the call was not triggered, the exit code and the signal are zero, the wait did not fail, and the policy has no attempts or the start did not fail and successes are not restarted |
| `RestartTheorems.AnswersAre` | client/restarts.go:114-197 | every other state of an untriggered call, its reason, and the count and interval start it leaves |
| `RestartTheorems.CallsForget` | client/restarts.go:104-115 | every call clears the start error, the exit and the trigger; a triggered one restarts at once and does not count |
| `RestartTheorems.DelaysAreBounded` | client/restarts.go:200-216 | delays are the policy's, or one nanosecond if it has none, and a quarter of the drawn number on top, or the rest of the interval, negative if and only if the second clock reading is past its end |
| `RestartTheorems.StartErrorFailsIff` | client/restarts.go:146-171 | a start error is answered as in fail mode if and only if the restart is triggered, there are no attempts, the mode is fail, the error is unrecoverable or the new count is within the attempts |
| `RestartTheorems.DelayModeNeverStops` | client/restarts.go:157-167 | in delay mode, for every n, a run with n untriggered restarts on start errors within one interval |
| `RestartTheorems.StartErrorIsLikeExit` | client/restarts.go:150-171 | a recoverable start error has the same effect as a failed exit |
| `RestartObject.RestartTracker.constructor` | client/restarts.go:23-34 | a new tracker counts from the given time |
| `RestartObject.RestartTracker.GetState` | client/restarts.go:100-144 | the model's answer, terminated under the condition of `TerminatedIff`, and the pending results are cleared |
| `RestartObject.RestartTracker.HandleStartError` | client/restarts.go:150-171 | no restart if and only if the error is unrecoverable, or the count exceeds the attempts in fail mode |
| `RestartObject.RestartTracker.HandleWaitResult` | client/restarts.go:175-197 | terminated if and only if the exit code and the signal are zero, the wait did not fail and successes are not restarted; otherwise no restart if and only if the count exceeds the attempts in fail mode |

## Left out

- The heaps of the broker are values that the maps hold, as the Go maps hold slices; that a popped slice shares its array with the old one is not modelled.
- Waiting for work: the channels and timeouts of `Dequeue` and `GetDuplicates` are not modelled; the attempts between the waits are.
- EvalBrokerObject.EvalBroker.TryDequeue: generated tokens and the random choice are parameters.
- EvalBrokerObject.EvalBroker.SetEnabled: disabling and the flush that follows are one step, not two lock sections.
- BlockedEvalsObject.BlockedEvals.SetEnabled: disabling and the flush that follows are one step, not two lock sections.
- Capacity changes while the tracker is disabled are ignored by `Unblock`, and no wakeup is claimed for them.
- The blocked tracker's channel has no bound in the model; a full channel only delays the send, which is a step of its own.
- The state store is a snapshot of plain sequences and maps with an arbitrary set of failing queries; Raft, RPC and memdb are not modelled. A request that fails is the end of a prefix.
- The time table that turns a GC age into a Raft index: the index is a parameter.
- `Periodic.Next` (cron): the next launch time is a parameter. `ForceRun`, `deriveJob` and the overlap check of `dispatch` create evaluations and do not touch the schedule.
- `keepUsageBelowThreshold` is one more eviction loop, with a stop condition on disk and inode percentages of the host.
- AllocGC.AllocGarbageCollector.FreeDisk: the sum of the incoming allocations' resources is a parameter, and sizes do not overflow.
- RestartTheorems.DelaysAreBounded: the jitter is a quarter of the drawn number rounded down, without floating-point rounding.
- `SetPolicy` in the middle of a run: the bounds of the restart tracker are for one policy.
- Metrics, logging and statistics queries.
- Task and allocation runners, drivers, endpoints, the FSM, the API and the command line.
