# A verified model of the travel-agent mission service

This project models the state and the protocols of the service in Dafny and proves what they keep. It covers

- **missions**: one mission with its attempt ledger, its causal event log and its status, under every interleaving of
  API calls, worker passes, provider replies and stale recovery (`MissionDomain`, `MissionSteps`, `MissionInvariants`, `MissionOutcomes`,
  `MissionWorld`, `MissionTraces`, `MissionEveryRun`, `MissionSafety`, `MissionLifecycle`, `MissionExactness`,
  `MissionPairs`, `MissionBacking`, `MissionSettlement`, `MissionForks`, `MissionPass`, `MissionLimits`,
  `MissionOverlaps`, `MissionVersion`); the registry of providers and its resolver (`ProviderRegistry`); the batch
  operations on all missions (`MissionBatches`, `Sorting`); the object and the repository updated in place, with the
  services and the due pass as methods that are proved equal to the pure operations (`MissionObjects`,
  `MissionEngine`, `DuePass`, `DueProcessor`); the in-memory provider (`MockTrain`); both backoffs (`Backoff`);
- **events**: payload normalisation, schema upcasting, the serializer and the event store (`EventPayloads`,
  `EventUpcasting`, `EventStore`), the format on disk key by key (`EventFields`), cursor pages, increments and the long poll (`HistoryPages`, `HistoryIncrements`),
  batched rebuilds and the verifiers of the read models (`EventProjections`), what a consistent projection may still
  show otherwise (`ProjectionOrder`), and the way of every mission's log through the serializer (`EventEmission`);
- **tasks**: the resumable plan executor and the life of a task around it (`TaskExecutor`, `TaskRuns`), with
  what its permission policy lets start (`TaskPermissions`);
- **three small protocols**: idempotency receipts (`Idempotency`), the rate limiter (`RateLimiter`) and the page-fill
  mapper (`PageFill`, `PageFillFields`).

`Wrappers` holds the option and result types.

## How missions are modelled

The in-memory repository suspends only inside provider calls, so `run_mission`, `confirm_mission` and `cancel_mission`
are cut there. `MissionSteps` gives each piece as an atomic function on a mission and its ledger row; `MissionEngine`
gives the same pieces as methods that mutate the shared object and the repository, and proves them equal to those
functions. `MissionWorld` interleaves the pieces: any number of calls may wait for their providers, `get` hands out
shared objects, and only `SetMissionProvider` makes another object, while `update` stores whichever object it is given.
Operations on different missions touch different objects and ledger rows, so a run of the whole system is, for each
mission, a run of that world. One immutable registry of adapters answers the whole run: which provider a mission resolves
to, whether a choice or a mode is supported, and whether a recorded provider is known.

A provider request may be answered, refused, fail or crash, and a request that fails or crashes may still have taken
effect. Providers are assumed to honour idempotency keys; `MockTrain` shows that the in-memory adapter does. Times are
whole microseconds (real seconds in the rate limiter). Identifiers are naturals and 0 is the nil UUID; an identifier
drawn by `uuid4` is never nil and never repeats. A mission carries the history of its statuses with the reason of each
change; no operation reads it.

Three disciplines say what a run may do. *AnyOrder* allows everything the registry's answers do; "every run" below
means that. *NoStaleCopy*
forbids one thing: an accepted cancellation whose call holds an object that a choice of provider has replaced meanwhile
and which it would store again; these are exactly the runs in which the newest object of the mission is always the
stored one (`MissionForks.NoStaleCopyExactly`). *Undisturbed* forbids recovering a mission whose run is alive and
retrying one while a confirmation or cancellation of it waits.

## What turned out not to hold

Each property that fails is given with a concrete input or run and with the condition under which it holds.

- The attempt ledger, that the stored log is only ever extended, and what a version tag says are kept in every
  NoStaleCopy run, including recovery during a live run, but not in every run: a cancellation that was overtaken by a
  change of provider and then accepted stores the mission object it still holds, with its own branch of the log
  (`MissionLimits.StaleCancelBreaksLedger`). Exact conditions: `MissionLimits.LateCancelExactly` for the ledger,
  `MissionForks.LateCancelForksExactly` for the log and `MissionForks.LateCancelTagExactly` for a version tag that lets
  the replaced mission's reader through.
- In the same way a due pass may find a mission without any attempt: `delay_after_attempt(0)` then raises out of the pass
  (`MissionOverlaps.StrayExceptionLeavesPass`). `MissionPass.DueRunsAreFiled` says exactly when an exception leaves the
  pass in every run; in NoStaleCopy runs only exhaustion does (`MissionPass.OnlyExhaustionEscapes`).
- The status table is kept in Undisturbed runs only (`MissionLimits.RecoveryBreaksTable`,
  `RetryUnderConfirmationBreaksTable`; exact condition `MarkFailedExactly`). In every run nothing but the failure mark of
  the due pass leaves it (`MissionEveryRun.OnlyTheMarkLeavesTheTable`).
- A mission may be put before the user without a provider (`MissionLimits.RecoveryLosesProvider`), and may be completed
  without one (`MissionOverlaps.CompletionLosesProvider`): a retry clears the provider while a reservation of a recovered
  run is still to come. This is the only way: in every run a waiting mission is backed by its reservation exactly when a
  provider is recorded, and the pair a completed mission records is settled exactly when both halves are
  (`MissionBacking.WaitingIsBackedExactly`, `CompletedIsSettledExactly`; which step does it:
  `MissionSettlement.HeldExactly`, `WaitingMissionsAreBackedExactly`, `CompletingStepSettles`,
  `MissionLimits.ConfirmationRecordedExactly`).
- `create_mission` aborts its receipt also when `begin` itself failed; with a store whose `begin` can fail that frees
  a key another client holds (`Idempotency.FailedBeginCreatesTwice`), and a `complete` that fails after the command was
  executed, and without effect, frees the key as well (`Idempotency.CompleteFaultRepeats`). Exactly the steps that are not `Harmless` lose
  the invariant behind at-most-once (`Idempotency.HarmlessExactly`), and after each of them two requests lead to a
  second execution (`Idempotency.HarmLosesAtMostOnce`).
- The notification backoff differs from the capped power of two exactly for an odd maximum whose rounded half is met at
  the last doubling (`Backoff.OddMaximumExample`, `Backoff.NotificationDelayIsCapped`).
- A version 2 event without an identifier raises KeyError, which the serializer does not turn into its own error
  (`EventStore.KeyErrorExactly`).
- A page snapshot may carry a control id twice; the mapper then builds a plan that its own validator refuses, exactly
  when two controls of one id both get into the plan (`PageFill.SharedIdExample`, `PageFill.ValidExactly`).
- The verifier of the provider history does not compare the position in the log, so a projection it calls consistent
  may still page events of equal time in another order (`ProjectionOrder.ConsistentButPagedOtherwise`); it pages like
  the log exactly when its positions order such events as the log does (`ProjectionOrder.ConsistentPagesExactly`).
- The README of the service calls failed a terminal status, although a retry leaves it, and says that a mission can be
  updated while created or waiting; the code also allows paused, and the model follows the code.

## Model

| member | source | states |
|---|---|---|
| MissionSafety.AttemptLedger | app/storage/memory.py:281-317 | in every NoStaleCopy run attempts are numbered 1..execution_attempts, only the last may be open, it is open iff the mission is processing and carries its claim time, closed attempts never change |
| MissionEveryRun.AttemptBudget | app/domain/mission.py:256-258 | in every run execution_attempts never exceeds the maximum |
| MissionSafety.AttemptCount | app/storage/memory.py:304-316 | in every NoStaleCopy run execution_attempts is the length of the ledger |
| MissionEveryRun.CausalLog | app/domain/mission.py:195-228 | in every run the log is one causal chain numbered 1..n, n is the last sequence, and the validator accepts it |
| MissionSafety.LogOnlyGrows | app/domain/mission.py:211-228 | in every NoStaleCopy run later states only extend the stored log |
| MissionEveryRun.ObjectsOnlyGrow | app/services/mission_provider_selection.py:48-92 | in every run each object that was ever handed out stays sound and only extends its own log |
| MissionSafety.VersionIdentifiesState | app/storage/memory.py:304-316 | in every NoStaleCopy run two states with the same last_event_sequence are equal or differ by exactly one claim |
| MissionVersion.TagGuardsAgainstChanges | app/api/routes/missions.py:1105-1155 | in every NoStaleCopy run a command with the tag of an earlier read is let through iff the mission is unchanged or was only claimed since; otherwise the conflict names both versions |
| MissionVersion.EnsureVersion | app/api/routes/missions.py:1105-1155 | a command is let through iff it has no header or names the last event of an existing mission; unreadable and negative numbers are refused before the mission is looked for |
| MissionEveryRun.LifecycleShape | app/domain/mission.py:159-193 | in every run claimed_at is present iff processing, waiting implies a schedule, created implies none |
| MissionEveryRun.OnlyTheMarkLeavesTheTable | app/services/mission_state_machine.py:11-166 | in every run and for every object each status follows by the table, a claim, a retry, a recovery or the failure mark, and the trail is legal iff each mark came from processing |
| MissionEveryRun.LeavingInEveryRun | app/services/mission_state_machine.py:11-65 | in every run completed, cancelled and expired are left by the failure mark alone, failed by a retry or the mark, and processing goes back to waiting only by recovery |
| MissionLifecycle.StatusChangesAreLegal | app/services/mission_state_machine.py:11-166 | in every Undisturbed run each status follows from the one before by the table, a claim, a retry or a recovery |
| MissionLifecycle.TerminalStatusIsFinal | app/services/mission_state_machine.py:11-65 | completed, cancelled and expired are never left in Undisturbed runs |
| MissionLifecycle.LeavingFailedAndProcessing | app/services/mission_state_machine.py:104-149 | in Undisturbed runs failed is left only by a retry and processing goes back to waiting only by recovery |
| MissionEveryRun.OneReservationPerProvider | app/services/mission_engine.py:544-545 | in every run, with any failures, recoveries and retries, at most one reservation per mission and provider is created |
| MissionEveryRun.EveryCompletionIsSettled | app/services/mission_engine.py:197-312 | in every run a completed mission logged a search-only completion, or its log names a provider and a reservation that this provider confirmed or made without need of confirmation |
| MissionExactness.OnlyRepliesComplete | app/services/mission_engine.py:197-386 | in every run nothing but a reply of a provider completes a mission, except a run that only searches |
| MissionBacking.RecordedProviderIsTheOne | app/services/provider_resolver.py:38-82 | in every run a recorded provider is the one provider the object's choice can resolve to, in whatever mode, and it is registered |
| MissionBacking.WaitingIsBackedExactly | app/services/mission_engine.py:214-262 | in every run, with recovery, retries and old copies, an object that waits for its user records a reservation, and the recorded provider holds it iff a provider is recorded |
| MissionBacking.CompletedIsSettledExactly | app/services/mission_engine.py:197-386 | in every run a completed object logged a search-only completion, or the pair it records was confirmed or needed no confirmation iff both halves are recorded |
| MissionSettlement.CompletingStepSettles | app/services/mission_engine.py:214-386 | in every run the reply that completes a mission has settled the provider and reservation of its call; the mission records that pair, and the recorded pair is settled, iff the provider was still recorded and the reservation is that of the answer or still recorded |
| MissionSettlement.HeldExactly | app/services/mission_engine.py:226-262 | in every run a step that puts an object before its user is a reservation answer for it, and the object is backed iff its provider was still recorded |
| MissionSettlement.HeldStays | app/services/mission_engine.py:226-262 | in every run no step makes or breaks what backs an object while it waits for its user |
| MissionSettlement.WaitingMissionsAreBackedExactly | app/services/mission_engine.py:214-262 | a run keeps every mission that waits for its user backed iff none of its steps is a reservation answer that mode and table let put a mission without recorded provider before its user |
| MissionSettlement.SettledStays | app/services/mission_engine.py:214-312 | in every run a completed mission whose recorded pair is settled keeps a settled pair as long as it is completed |
| MissionPairs.PairMoves | app/services/mission_engine.py:53-517 | every step keeps, clears or freshly writes each half of an object's pair, and leaves the pair of a waiting or completed object alone but for a reservation it books |
| ProviderRegistry.ModeDoesNotMatter | app/services/provider_resolver.py:38-82 | whenever a provider choice resolves, in whatever mode, it resolves to the same registered provider |
| ProviderRegistry.ResolvesExactly | app/services/provider_resolver.py:38-82 | a chosen provider is resolved iff it is registered and has a capability for the mode; without a choice the one adapter that has is, iff there is exactly one; each refusal says exactly which condition failed |
| MissionExactness.AsksToConfirmOnlyByMode | app/services/mission_engine.py:246-276 | in every run a call comes to wait for an automatic confirmation only by the reservation reply, and only where the mode is not REQUIRE_CONFIRMATION |
| MissionForks.NoStaleCopyExactly | app/services/mission_provider_selection.py:78-92 | the NoStaleCopy runs are exactly the runs in which the newest object of the mission is always the stored one |
| MissionForks.LateCancelForksExactly | app/services/mission_engine.py:408-420 | before any old copy was stored, a cancellation reply extends the stored log iff its call holds the stored object or the provider did not accept |
| MissionForks.LateCancelTagExactly | app/api/routes/missions.py:1105-1155 | where a NoStaleCopy run ends with an accepted late cancellation: the tag of the replaced mission is still let through, although more than a claim has changed, iff the copy was two events behind |
| MissionLifecycle.WaitingForUserHasReservation | app/services/mission_engine.py:238-262 | in Undisturbed runs the provider of a requires_confirmation mission is always recorded, and holds the recorded reservation |
| MissionLifecycle.CompletionIsSettled | app/services/mission_engine.py:264-312 | in Undisturbed runs a completed mission only searched, or both halves of its pair are always recorded and settled |
| MissionLifecycle.NeverConfirmsByItself | app/services/mission_engine.py:246-276 | in Undisturbed runs no call of a mission in REQUIRE_CONFIRMATION mode waits for an automatic confirmation |
| MissionLifecycle.UndisturbedRunsAreLedgerRuns | app/services/mission_provider_selection.py:48-92 | without overlapping recovery and retry no cancellation ever stores a replaced object |
| MissionLimits.LateCancelExactly | app/services/mission_engine.py:408-420 | in every NoStaleCopy run the next cancellation reply keeps the ledger in order iff its call holds the stored object, or it is not accepted, or the object counts the same attempts and none is open |
| MissionLimits.MarkFailedExactly | app/services/due_mission_processor.py:134-149 | the unchecked failure mark obeys the status table iff the mission is still processing |
| MissionLimits.ConfirmationRecordedExactly | app/services/mission_engine.py:226-262 | a mission put before the user has some provider recorded iff one was still recorded when the reservation answer came |
| MissionLimits.StaleCancelBreaksLedger | app/services/mission_provider_selection.py:78-92 | a concrete run in which a cancellation stores an old copy, breaks the ledger and replaces the stored log by another branch |
| MissionLimits.RecoveryBreaksTable | app/storage/memory.py:382-419 | a concrete run in which recovery of a live run leads to a move outside the table |
| MissionLimits.RetryUnderConfirmationBreaksTable | app/services/mission_retry.py:52-66 | a concrete run without recovery in which a retry under a pending confirmation does |
| MissionLimits.RecoveryLosesProvider | app/storage/memory.py:382-419 | a concrete run that ends in requires_confirmation without a recorded provider |
| MissionOverlaps.CompletionLosesProvider | app/services/mission_retry.py:52-66 | a concrete run that completes a mission by a settled reservation without a recorded provider |
| MissionOverlaps.StrayExceptionLeavesPass | app/services/mission_retry_policy.py:23-25 | a concrete run in which a transient error of a claimed run meets a stored mission without attempts and an exception leaves the pass |
| MissionPass.DueRunsAreFiled | app/services/due_mission_processor.py:53-107 | in every run each due run that ends is put in exactly one list that is right about the stored mission, or an exception leaves the pass; it does iff the run raised a transient error and the mission is exhausted or has no attempt, or it returned a retryable failure and the mission has no attempt |
| MissionPass.OnlyExhaustionEscapes | app/services/due_mission_processor.py:53-107 | in every NoStaleCopy run an exception leaves the pass iff it was transient and the budget is used up |
| MissionDomain.ChainedIsCausal | app/domain/mission.py:195-228 | logs built by record_event are exactly the logs numbered 1..n with one correlation in which each event names its predecessor |
| MissionDomain.EmitIsRecordEvent | app/domain/mission.py:204-209 | with a fresh identifier neither refusal of record_event applies and the event is the one the model emits |
| MissionDomain.ValidateEventSequence | app/domain/execution.py:37-68 | the loop accepts a log iff sequences increase, identifiers are unique and not nil, causes are not self or nil, and the last sequence matches |
| MissionDomain.ChainedIsValid | app/domain/execution.py:37-68 | every log built by record_event is accepted |
| MissionInvariants.ClaimOk | app/storage/memory.py:304-316 | a claim opens the next attempt, records no event and uses one unit of the budget |
| MissionInvariants.RecoverOk | app/services/mission_state_machine.py:116-149 | recovery fails an exhausted mission, returns any other to waiting and closes its attempt |
| MissionInvariants.StartRunOk | app/services/mission_engine.py:53-170 | the first segment of a run keeps mission and ledger sound and ends waiting for the search, failed, or with an exception |
| MissionInvariants.AfterSearchOk | app/services/mission_engine.py:171-213 | the segment after the search keeps them sound and ends in a reservation call, failed, or completed by search only |
| MissionInvariants.AfterReserveOk | app/services/mission_engine.py:197-277 | the segment after the reservation records it and ends failed, before the user, completed without need of confirmation, or in the confirmation call |
| MissionInvariants.AfterAutoConfirmOk | app/services/mission_engine.py:278-312 | completed iff the provider accepted |
| MissionInvariants.StartConfirmOk | app/services/mission_engine.py:315-345 | a confirmation request either refuses and changes nothing or asks the recorded provider for the recorded reservation |
| MissionInvariants.AfterConfirmOk | app/services/mission_engine.py:346-386 | completed iff the provider accepted |
| MissionInvariants.StartCancelOk | app/services/mission_engine.py:389-493 | a cancellation refuses unchanged, cancels at once, or asks the recorded provider for the recorded reservation |
| MissionInvariants.AfterCancelOk | app/services/mission_engine.py:486-517 | cancelled iff the provider accepted |
| MissionInvariants.RetryOk | app/services/mission_retry.py:42-82 | a retry leaves only failed, never exhausted missions, with a schedule not in the past |
| MissionInvariants.ScheduleOk | app/services/mission_scheduling.py:24-86 | scheduling keeps the mission sound and sets exactly the wanted schedule |
| MissionInvariants.PauseOk | app/services/mission_pause.py:28-48 | pausing keeps the plan and the ledger |
| MissionInvariants.ResumeOk | app/services/mission_pause.py:51-75 | resuming returns to waiting iff there is a schedule |
| MissionInvariants.UpdateOk | app/services/mission_update.py:30-109 | an update never puts the maximum below the attempts already made |
| MissionInvariants.SelectOk | app/services/mission_provider_selection.py:48-92 | a new provider choice keeps mission and ledger sound and forgets the resolved provider and the reservation |
| MissionInvariants.AutomaticRetryTimeOk | app/services/due_mission_processor.py:161-165 | the automatic retry time is never in the past and never after the deadline |
| MissionInvariants.AfterDueReturnOk | app/services/due_mission_processor.py:77-105 | after a run that returned, the pass files it by its status and no exception escapes |
| MissionInvariants.AfterDueRaiseOk | app/services/due_mission_processor.py:56-75 | after a run that raised, the retry call escapes iff the exception is transient and the budget used up |
| MissionOutcomes.ComesFrom | app/services/mission_state_machine.py:11-65 | the table read from its targets: for each status the statuses it can come from |
| MissionOutcomes.RecordRefuses | app/domain/mission.py:195-228 | record_event refuses exactly a nil or already used identifier, and else adds one event that continues number, correlation and cause |
| MissionOutcomes.SaveFollows | app/storage/memory.py:433-491 | storing changes the open last attempt alone: closed with status, time, provider and reservation of a mission that ended or waits for its user, given the provider while processing |
| MissionOutcomes.StartRunOutcome | app/services/mission_engine.py:53-170 | over the fields: invalid iff the status may not run, expired and not ready iff the deadline is over, not ready and unchanged iff a waiting mission is scheduled for later; else the provider is recorded and the search is awaited, or the run ends for the missing provider or participants; with the events in order |
| MissionOutcomes.AfterSearchOutcome | app/services/mission_engine.py:171-213 | which search answer leads to which status, best option, events and reservation call |
| MissionOutcomes.AfterReserveOutcome | app/services/mission_engine.py:214-277 | which reservation answer, in which mode, puts the mission before its user, asks for a confirmation, completes or fails it, with the reservation recorded |
| MissionOutcomes.AfterAutoConfirmOutcome | app/services/mission_engine.py:278-312 | an accepted automatic confirmation completes, every other answer fails the mission with its own event or raises |
| MissionOutcomes.StartConfirmOutcome | app/services/mission_engine.py:315-345 | a confirmation is refused unchanged exactly outside requires_confirmation, with half a pair or with an unknown provider; without a pair it completes at once, with one it asks the provider |
| MissionOutcomes.AfterConfirmOutcome | app/services/mission_engine.py:346-386 | likewise for the answer to it |
| MissionOutcomes.StartCancelOutcome | app/services/mission_engine.py:389-493 | a cancellation cancels created, waiting and paused missions at once, asks the provider about a reserved one, and is refused unchanged otherwise |
| MissionOutcomes.AfterCancelOutcome | app/services/mission_engine.py:486-517 | likewise for the answer to it |
| MissionOutcomes.RetryOutcome | app/services/mission_retry.py:33-82 | a retry is refused exactly for a time in the past, a status other than failed, or a used up budget, in this order; else the mission waits for that time with nothing left of the failed attempt |
| MissionOutcomes.ScheduleOutcome | app/services/mission_scheduling.py:24-86 | a schedule is refused exactly for the status, a time not in the future or one after the deadline; else it arrives, with the status that goes with it and one event, or nothing changes |
| MissionOutcomes.PauseOutcome | app/services/mission_pause.py:28-75 | pausing is for created and waiting missions, resuming for paused ones, which go back by their schedule |
| MissionOutcomes.UpdateOutcome | app/services/mission_update.py:30-127 | each refusal of an update exactly; else every wanted value arrives, no other field changes, and one event is recorded iff a value differs |
| MissionOutcomes.SelectOutcome | app/services/mission_provider_selection.py:48-92 | each refusal of a choice exactly; a new choice is recorded without resolved provider and reservation |
| MissionOutcomes.RetriesExactly | app/services/mission_retry_policy.py:31-46 | a failed mission is retried iff it has budget and its last event is a search without result or a retryable provider failure |
| MissionOutcomes.AutomaticRetryOutcome | app/services/due_mission_processor.py:152-172 | an automatic retry waits for the backoff of the attempt, cut at the deadline, or is refused exactly for a missing attempt, a deadline in the past, the status or the budget |
| MissionOutcomes.AfterReturnOutcome | app/services/due_mission_processor.py:77-105 | by the fields of the mission a run returned: which list it is put in and what it becomes |
| MissionOutcomes.AfterRaiseOutcome | app/services/due_mission_processor.py:53-75 | by the error a run raised, the attempts and the deadline: failed with its event, retried, or which exception leaves |
| MissionBatches.BatchOk | app/storage/memory.py:281-419 | claim, expiry and recovery batches keep every mission sound and touch only what they pick |
| MissionBatches.ClaimsKeepPromise | app/storage/memory.py:281-317 | over the fields: a claim batch takes missions that wait, whose time has come, that have no deadline or a later one, and that have budget, in the order of their times, and makes each a processing one with a new attempt; a mission with such fields is left only by a full batch |
| MissionBatches.ExpiryKeepsPromise | app/storage/memory.py:343-380 | likewise: exactly created, waiting and paused missions at or past their deadline are expired, with their event at that time |
| MissionBatches.RecoveryKeepsPromise | app/storage/memory.py:382-419 | likewise: exactly processing missions claimed at least the timeout ago are recovered, failed if the budget is used up and waiting otherwise, and their attempt is closed |
| MissionBatches.EarliestFirst | app/storage/memory.py:299-303 | no picked mission is later than a matching one left behind, and something is left only by a full batch |
| MissionBatches.BatchAdvances | app/storage/memory.py:281-317 | after a batch the ranking is the old one without what was picked |
| MissionBatches.BatchesDrain | app/storage/memory.py:281-317 | successive batches pick exactly the first missions of the initial ranking, each once, until none is left |
| MissionBatches.ClaimsDrain | app/storage/memory.py:281-317 | enough claim batches at one time leave no mission due and claim none twice |
| Sorting.SortKeepCommute | app/storage/memory.py:300-303 | the sort is stable: it commutes with filtering |
| MissionObjects.MissionObject.Record | app/domain/mission.py:195-228 | the method builds the event record_event builds, or refuses and changes nothing |
| MissionObjects.MissionObject.MoveTo | app/services/mission_state_machine.py:67-102 | the transition on the object, or the exception with nothing changed |
| MissionObjects.MissionRepository.Update | app/storage/memory.py:433-453 | update brings exactly this mission's ledger row up to date and stores the object it is given |
| MissionObjects.MissionRepository.ClaimDue | app/storage/memory.py:281-317 | claim_due refuses the limit or claims what ClaimsKeepPromise says, over the fields of the missions before and after, and returns their stored objects in that order |
| MissionObjects.MissionRepository.ExpireDue | app/storage/memory.py:343-380 | expire_due likewise, by ExpiryKeepsPromise |
| MissionObjects.MissionRepository.RecoverStaleProcessing | app/storage/memory.py:382-419 | recover_stale_processing likewise, by RecoveryKeepsPromise, and refuses a claim timeout that is not positive |
| MissionEngine.StartRun | app/services/mission_engine.py:53-170 | the code up to the search call does to the shared objects what the segment says, whose outcome StartRunOutcome gives over the fields |
| MissionEngine.AfterSearch | app/services/mission_engine.py:171-213 | the code from the search answer on does |
| MissionEngine.AfterReserve | app/services/mission_engine.py:214-277 | the code from the reservation answer on does |
| MissionEngine.AfterAutoConfirm | app/services/mission_engine.py:278-312 | the code from the automatic confirmation on does |
| MissionEngine.AfterConfirm | app/services/mission_engine.py:346-386 | the code from the confirmation answer on does |
| MissionEngine.AfterCancel | app/services/mission_engine.py:486-517 | the code from the cancellation answer on does, whichever object it holds |
| MissionEngine.RetryMission | app/services/mission_retry.py:33-82 | retry_mission requeues the object or refuses and changes nothing |
| MissionEngine.ScheduleMission | app/services/mission_scheduling.py:24-86 | schedule_mission likewise; its moves are always allowed by the table |
| MissionEngine.UpdateMission | app/services/mission_update.py:30-127 | update_mission changes the fields that differ and records one event iff any does |
| MissionEngine.SelectProvider | app/services/mission_provider_selection.py:48-92 | a changed choice stores a new object; the old one is left as it is |
| DuePass.DuePassClassifies | app/services/due_mission_processor.py:31-107 | when the pass returns every claimed mission is in exactly one list, the lists add up to the number claimed and are right about the missions, and all others are as claiming left them; it fails to return iff a claimed mission without budget meets a transient error |
| DuePass.ClaimedAreReady | app/services/due_mission_processor.py:39-44 | no mission at or past its deadline is claimed |
| DueProcessor.ProcessDueMissions | app/services/due_mission_processor.py:31-107 | the report is about the state left: it names what was expired, counts what was claimed, puts each claimed mission in one list, and the mission is before its user or completed, failed, or waits for a retry between now and its deadline accordingly; an exception names a claimed mission that failed on its last attempt |
| DueProcessor.PassIsReported | app/services/due_mission_processor.py:31-107 | that promise holds of what the pass does, whatever the providers answer |
| MockTrain.MockTrainAdapter.ReserveOption | app/adapters/mock_train.py:110-127 | the adapter is a key-honouring provider: a used key repeats its reservation |
| MockTrain.MockTrainAdapter.ConfirmReservation | app/adapters/mock_train.py:129-157 | a used key repeats its answer, a new one confirms iff reserved and not cancelled |
| MockTrain.MockTrainAdapter.CancelReservation | app/adapters/mock_train.py:159-185 | a used key repeats its answer; what is cancelled cannot be confirmed any more |
| Backoff.DelayAfterAttempt | app/services/mission_retry_policy.py:23-29 | the loop returns min(initial * multiplier^(n-1), maximum), or refuses n below 1 |
| Backoff.DelayIsMonotone | app/services/mission_retry_policy.py:23-29 | the first delay is the initial one, each next one the multiple of it cut at the maximum, and the delay never decreases |
| Backoff.ExponentialRetryDelay | app/services/notification_outbox.py:115-126 | the loop with its early exit, against the exact condition under which the exit comes too soon |
| Backoff.NotificationDelayIsCapped | app/services/notification_outbox.py:115-126 | it equals the capped power of two iff no rounded half is met at the last doubling; always for an even maximum |
| Backoff.OddMaximumExample | app/services/notification_outbox.py:115-126 | a base of one and a maximum of five microseconds at the third attempt: five instead of four |
| EventPayloads.NormalizeTrims | app/domain/provider_id.py:1-8 | normalising an id trims it and leaves a trimmed id alone |
| EventPayloads.PayloadRoundTrip | app/domain/provider_resolution.py:33-204 | reading the dump of a valid payload gives the payload back |
| EventPayloads.NormalIsIdempotent | app/services/mission_event_serializer.py:246-268 | normalising metadata twice is normalising once |
| EventPayloads.ResolutionPayloadIsNormal | app/services/provider_resolver.py:38-82 | every resolution event a run writes, for any registry, carries a valid payload that storing does not change |
| EventFields.NormalizesExactly | app/domain/provider_id.py:1-8 | an id is the text without the white space around it, and refused iff there is nothing else |
| EventFields.ReadsWhatIsThere | app/domain/provider_resolution.py:33-204 | accepted metadata say, key by key, what the payload read from them says |
| EventFields.WritesWhatItIs | app/domain/provider_resolution.py:33-204 | the dump of a valid payload says it, key by key |
| EventFields.ResolvedAcceptedExactly | app/domain/provider_resolution.py:41-119 | a resolution is valid iff its snapshot agrees with it: the provider is among distinct candidates and was asked for by name iff the selection is explicit |
| EventFields.FailureAcceptedExactly | app/domain/provider_resolution.py:145-173 | a failure is valid iff it names the wanted provider and the candidates that its reason calls for |
| EventUpcasting.BuildRegistry | app/services/mission_event_upcaster.py:178-219 | the builder accepts exactly the contiguous chains with one upcaster per version |
| EventUpcasting.UpcastToCurrent | app/services/mission_event_serializer.py:163-205 | the loop computes the chain of upcasts with every error of the code |
| EventUpcasting.NeverLacksAnUpcaster | app/services/mission_event_serializer.py:182-197 | with an accepted registry no upcaster is missing and success takes exactly current - v hops |
| EventUpcasting.UpcastsCompose | app/services/mission_event_serializer.py:182-197 | stopping at a version on the way and going on is the same as going through |
| EventUpcasting.DefaultChainIsModern | app/services/mission_event_upcaster.py:100-171 | the default chain gives every event its identifiers from the mission, its sequence and the event before it, with the exact error cases |
| EventStore.SerializeRoundTrip | app/services/mission_event_serializer.py:123-161 | an event can be written iff writable; reading it back gives the normalised event, whatever the context |
| EventFields.WritesFields | app/services/mission_event_serializer.py:123-136 | which key of the persisted event holds which field, and that its metadata say what the event's say |
| EventFields.LoadsWhatIsThere | app/services/mission_event_serializer.py:138-161 | what is loaded, of any version, has the type, time, message, number and identifiers that are persisted, and metadata that say what the persisted ones say |
| EventStore.KeyErrorExactly | app/services/mission_event_upcaster.py:155 | a KeyError escapes iff a version 2 event has no identifier |
| EventStore.LoadLog | app/services/mission_event_store.py:34-61 | the loop restores the log in the context of each predecessor and validates it |
| EventFields.RefusesExactly | app/domain/execution.py:37-68 | a log is refused iff an event has a nil or repeated identifier, a nil correlation, nil or itself as cause, or a number below one or not above an earlier one, or the mission counts to another number |
| EventStore.SaveLoad | app/services/mission_event_store.py:34-64 | saving and loading a log normalises its payloads and changes nothing else |
| EventStore.LoadSaveLoad | app/services/mission_event_store.py:34-64 | load, save, load is load |
| EventStore.LegacyLogIsCausal | app/services/mission_event_upcaster.py:145-171 | a legacy log that loads is the causal chain record_event would have built |
| EventStore.OldestLogsLoad | app/services/mission_event_upcaster.py:100-142 | logs of the first two versions always load, with derived identifiers, as one causal chain |
| HistoryPages.PageShows | app/services/provider_resolution_history.py:301-360 | a page shows rows after the cursor in strict order; what it leaves out follows the next cursor |
| HistoryPages.ReadPage | app/services/provider_resolution_history.py:301-360 | a page is refused iff its cursor is of another mission, and the next cursor is of this one |
| HistoryPages.WalkIsExactlyOnce | app/services/provider_resolution_history.py:301-360 | walking to the final page while the log grows shows every provider event of the initial log on exactly one page and no event twice |
| HistoryPages.FixedWalk | app/services/provider_resolution_history.py:301-360 | on a fixed log the pages concatenate to the sorted provider events, and the walk ends |
| HistoryIncrements.ReadIncrement | app/services/provider_resolution_history.py:487-519 | the early-exit loop is filter-then-take |
| HistoryIncrements.IncrementIsValid | app/services/provider_resolution_history.py:270-289 | an increment always passes its own validator |
| HistoryIncrements.FollowingReadsEverything | app/services/provider_resolution_history.py:460-519 | iterating latest_sequence over a growing log reads every event of the scope once, in order |
| HistoryIncrements.ProjectionPageIsCanonical | app/services/provider_resolution_history.py:362-398 | a projection with the log's rows in any order pages like the log |
| HistoryIncrements.ProjectionIncrementIsCanonical | app/services/provider_resolution_history.py:467-486 | and answers increments like the log |
| HistoryIncrements.WaitForIncrement | app/services/provider_resolution_history.py:420-458 | the poll returns the first increment that is not empty or an empty one at the deadline, reads at most ceil(wait/interval)+1 times, and each sleep lies between the first clock reading and that reading plus the wait |
| EventProjections.RebuildMissionEvents | app/services/mission_event_projection.py:34-64 | for any batch size the table is the canonical logs in order and the counts are right |
| EventProjections.RebuildProviderHistory | app/services/provider_history_rebuild.py:26-61 | for any batch size the table is the canonical provider history in order and the counts are right |
| EventFields.RowIsTheEvent | app/services/provider_history_projection.py:54-70 | a row has the number, time, place and type of its event and says what its metadata say; only events of other types have none |
| EventProjections.ProviderDiff | app/services/provider_history_verification.py:98-157 | a field is named, once, iff it differs |
| EventProjections.CompareMaps | app/services/mission_event_projection.py:166-190 | the lists are exactly the differences of the two maps, the report is consistent iff they agree, its validator never refuses |
| EventProjections.CompareMissionEvents | app/services/mission_event_projection.py:156-190 | consistent iff the events agree under every sequence; refuses repeated sequences |
| EventProjections.CompareProviderHistory | app/services/provider_history_verification.py:98-157 | consistent iff type, time and payload agree under every sequence; refuses repeated sequences |
| EventProjections.RebuildThenVerify | app/services/provider_history_rebuild.py:26-61 | after a rebuild the provider rows of every mission agree with its log |
| EventProjections.RebuildAndVerifyProviderHistory | app/services/provider_history_verification.py:98-157 | rebuild, then verify, for any batch size and any mission: a report unless the log repeats a sequence, and it is consistent |
| EventProjections.RebuiltEventsAreTheLog | app/services/mission_event_projection.py:34-64 | after a rebuild the event table holds every mission's log, event by event |
| EventProjections.RebuildAndVerifyMissionEvents | app/services/mission_event_projection.py:156-190 | rebuild, then verify, likewise for whole events |
| ProjectionOrder.PagesAlikeExactly | app/services/provider_resolution_history.py:301-398 | rows with the same items under the same sequences show the same on every page, for all limits along the cursors, iff their positions order events of equal time alike |
| ProjectionOrder.ConsistentPagesExactly | app/services/provider_history_verification.py:98-157 | a projection that agrees with the log by the verification pages like it iff its positions order events of equal time as the log does |
| ProjectionOrder.ConsistentButPagedOtherwise | app/services/provider_history_verification.py:98-157 | a concrete log and projection that the verification calls consistent and whose first pages differ |
| ProjectionOrder.WalkReads | app/services/provider_resolution_history.py:362-398 | the pages of that statement are those the two reading paths return |
| ProjectionOrder.NothingIsSkipped | app/services/provider_resolution_history.py:320-330 | the history of a log that loads shows exactly the events of the three provider types |
| EventEmission.EveryTypeIsKnown | app/services/mission_event_serializer.py:66-107 | every type the services record is known to the serializer, which wants a payload for exactly the three provider decisions |
| EventEmission.RetryTypesAreTheirs | app/services/mission_retry_policy.py:31-43 | the two types the retry policy reads back stand for one kind of event each |
| EventEmission.SelectionPayloadExactly | app/domain/provider_resolution.py:175-228 | a selection event is recorded iff its payload is valid, that is, iff the choice really changes |
| EventEmission.EveryLogSavesAndLoads | app/services/mission_event_store.py:34-64 | in every run the mission's log can be saved, loads in any context as the very log that was written, and the validator accepts it |
| TaskExecutor.ValidateStepGraph | app/domain/task_plan.py:92-107 | accepts iff ids are unique and dependencies are on earlier steps |
| TaskExecutor.ExecuteTaskPlan | app/services/task_executor.py:40-183 | the loop does what the recursive interpreter says, whose starts StartsArePermitted, and whose endings StatusTellsTheJournal and StepsAreLimited pin over the fields |
| TaskExecutor.ChunksMakeTheBatch | app/services/task_executor.py:54-183 | any limits of at least one step, one call more than there are steps, lead to exactly the task of one unlimited call |
| TaskRuns.StepsRunInOrder | app/services/task_executor.py:68-183 | in every run the succeeded steps are a prefix of the plan, no step starts before its dependencies succeeded or after it succeeded itself, and each start is followed at once by its own end |
| TaskRuns.ApprovalsAreSpentOnce | app/api/routes/tasks.py:185-228 | in every run and for each step: approved starts equal the approvals used up for this step, plan version and reason, none where nobody is asked; a step that pays or charges never starts without one |
| TaskRuns.ExecuteOk | app/services/task_executor.py:68-183 | one execution of any length keeps the invariant of journal and approvals |
| TaskPermissions.AsksExactly | app/services/task_permission.py:11-73 | from action, flags and target alone: when a step is put to the user, and for which reason |
| TaskPermissions.DeniesExactly | app/services/task_permission.py:11-73 | and when it is denied, and why |
| TaskPermissions.StartsArePermitted | app/services/task_executor.py:68-142 | in every run no forbidden step starts, a step starts as approved by the user iff its action, flags and target need one, and a blocked step needs one and names the reason |
| TaskPermissions.StatusTellsTheJournal | app/services/task_executor.py:40-183 | each refusal of the executor exactly; else the status a call leaves is told by the entries it added |
| TaskPermissions.StepsAreLimited | app/services/task_executor.py:178-182 | a call takes at most its limit of steps, at least one, and leaves the task ready iff it took that many and all succeeded |
| TaskPermissions.TurnShowsWhatItSaw | app/services/task_executor.py:133-178 | a step ends as the runner answered; the page it saw replaces the page and drops the fill plan unless a new one comes with it |
| TaskPermissions.ApprovalsAreGrantedExactly | app/api/routes/tasks.py:185-228 | an approval is granted iff the task waits at that step for that reason and no approval of the step is unused |
| TaskPermissions.AgentRunsExactly | app/api/routes/tasks.py:446-472 | which tasks an agent runs for, and which answer leads to which status |
| TaskPermissions.UserRequestsExactly | app/api/routes/tasks.py:507-534 | which statuses pausing, resuming, cancelling and clarifying leave, and that they touch nothing else |
| Idempotency.ReceiptStore.Begin | app/storage/mission_command_idempotency.py:16-33 | begin claims a new key, repeats a result, or reports a conflict or a pending request |
| Idempotency.ReceiptStore.Complete | app/storage/mission_command_idempotency.py:35-38 | complete stores the result under an existing receipt |
| Idempotency.ReceiptStore.Abort | app/storage/resource_creation_idempotency.py:49-58 | abort removes only a pending receipt of the same request |
| Idempotency.ReceiptStore.Execute | app/api/routes/missions.py:1070-1102 | an undisturbed request executes iff the key is new, and later matching ones get its result |
| Idempotency.AtMostOnce | app/api/routes/missions.py:1070-1102 | in every run of harmless steps, a failing begin included where it frees nothing or only an abandoned receipt: no two clients execute under one key at once, at most one execution per key ends, everyone answered gets its result |
| Idempotency.OnlyOwnerRemoves | app/storage/mission_command_idempotency.py:40-50 | in such a run a receipt disappears only while pending, by its owner's failure or, when abandoned, by a failing begin |
| Idempotency.ResultStays | app/storage/mission_command_idempotency.py:16-33 | a completed receipt stays and answers every later matching request |
| Idempotency.HarmlessExactly | app/api/routes/missions.py:216-267 | for every step, begin and complete failing with or without effect included: the invariant behind at-most-once is kept iff the step is harmless |
| Idempotency.BeginFaultExactly | app/api/routes/missions.py:258-264 | a failing begin that frees a receipt, whether it took effect or not, keeps that invariant iff nobody is executing under the key and nothing was executed |
| Idempotency.HarmLosesAtMostOnce | app/api/routes/missions.py:216-267 | after any harmful step a new client with the same request gets to execute beside or after another execution of the key |
| Idempotency.FailedBeginCreatesTwice | app/api/routes/missions.py:258-264 | a run from the empty store in which a resource is created twice under one key |
| Idempotency.CompleteFaultRepeats | app/api/routes/missions.py:1087-1102 | a complete that fails without effect after the execution ended leaves the key free for a second one |
| RateLimiter.RateLimitMiddleware.Call | app/api/middleware/rate_limit.py:34-98 | one limited request does to the registry what the specification says |
| RateLimiter.WindowLimit | app/api/middleware/rate_limit.py:44-83 | of the requests a client had accepted since its last eviction at most the limit fall into any window |
| RateLimiter.EvictsLeastRecentlyUsed | app/api/middleware/rate_limit.py:46-53 | the registry never exceeds max_clients, is ordered by last request and evicts the least recently used client only when full |
| RateLimiter.RetryAfterSuffices | app/api/middleware/rate_limit.py:59-79 | a refused client is accepted at its first request after the advertised Retry-After (section 10.2.3 of RFC 9110), however often it was refused meanwhile and whatever the others do |
| RateLimiter.AnswersExactly | app/api/middleware/rate_limit.py:44-98 | a request is refused iff as many of the client's accepted requests as the limit lie in the window that ends now; what remains and the seconds until the oldest leaves are exact |
| PageFill.BuildPageFillPlan | app/services/page_field_mapper.py:105-158 | the loop builds the plan of the specification, whose bindings BindingsExactly and OneMoreControl pin over the fields of the controls, or fails for an unknown person or an invalid plan |
| PageFill.PlanIsValidAndComplete | app/domain/page_fill_plan.py:80-94 | with distinct control ids the plan passes every check and every required enabled control is in exactly one list |
| PageFill.KthControlToKthPerson | app/services/page_field_mapper.py:121-138 | the bindings are exactly: the k-th control detected for a field goes to the k-th person |
| PageFillFields.BindingsExactly | app/services/page_field_mapper.py:121-138 | without the detectors: the bindings are exactly the enabled controls that take text, each with the first field in the fixed order that its label matches, for the person whose turn it is, sensitive iff a document number |
| PageFillFields.DetectsFirstMatch | app/services/page_field_mapper.py:161-168 | a control counts for a field iff it is enabled, takes text and matches the field and none before it |
| PageFillFields.DetectsWhatItTakes | app/services/page_field_mapper.py:171-211 | a control takes the first wanted intent field it matches that is still free, and a free search term only where there is no such field |
| PageFillFields.OneMoreControl | app/services/page_field_mapper.py:121-158 | what one more control adds to the plan, over its fields and what is already bound |
| PageFill.ValidExactly | app/domain/page_fill_plan.py:80-94 | the plan passes every check iff no two controls with one id are both listed: by having a person left for their field, something free in the intent, or a required value |
| PageFill.SharedIdIsRefused | app/domain/browser_page.py:68-77 | any two required enabled controls with one id make the mapper fail |
| PageFill.SharedIdExample | app/services/page_field_mapper.py:105-158 | a concrete page of two such controls |

## Left out

- Concurrency across missions: interleavings are modelled per mission, since operations on different missions touch different objects; the whole-repository methods run one at a time.
- DueProcessor.ProcessDueMissions: runs the claimed missions without interference between their provider calls; what interference may do is stated per mission in MissionPass.DueRunsAreFiled.
- DuePass.DuePassClassifies: does not model the error texts of the report.
- HistoryIncrements.WaitForIncrement: the clock counts whole microseconds, so a remaining time that rounds to a sleep of zero is not modelled.
- EventEmission.EveryTypeIsKnown: which string names which kind of event is taken over as a table; proved are that it is known, which payload goes with it, and which strings the retry policy reads back.
- EventStore.OldestLogsLoad: takes the name-based UUID as an injective derivation that never yields nil.
- TaskExecutor.ExecuteTaskPlan: clock and runner answer as a function of the journal length; a cancelled call stores nothing and is not a step; journal entry ids are not modelled.
- Concurrent executions of one task: the repository's version check lets only one of them be stored; what two browsers do meanwhile is not modelled.
- PageFill.BuildPageFillPlan: text matching is a given set of matching fields and terms per control.
- SQL repositories, migrations and sessions: the in-memory repositories are modelled; projection writers append to a sequence.
- The registry is one for the whole life of a mission; a restart with other adapters is not modelled. The methods and the sequential pass take the resolver's answer as a parameter.
- HTTP routing, schemas, authentication, configuration, web UI, browser and LLM adapters.
- Intent extraction, rule scoring and the choice of the best option: any option or none may come out of a search.
- The notification dispatch loop, mission statistics, summaries and outcome mapping would only add easy members.
- Cursor encoding, JSON and UUID texts, taken as injective encodings.
- Time zone checks of timestamps.
