# Verified model of the uptime platform's coordination code

The uptime platform runs any number of schedulers, notification workers, API processes and
retention jobs against one PostgreSQL database. They coordinate through leases with tokens,
row locks and timeouts. This project models that coordination in Dafny and proves what holds
over every run of it.

The project has four layers:

* **Pure steps** shared by everything else: lease arithmetic (`Lease`), delivery rows and retry
  (`Deliveries`), the check state machine (`MonitorState`, `MonitorConfig`, `CheckRecording`), the order of claims
  (`Selection`).
* **Step systems over one clock.** `DeliveryProtocol` has fan-out, claims, sends, outcomes,
  releases, crashes, users and retention as labelled steps; `MonitorProtocol` has claims, probes,
  leased and manual checks, edits, maintenance windows and deletion; `StatisticsProtocol`,
  `MembersProtocol`, `RefreshProtocol` and the runs of `OrganizationLoad` are smaller ones. A
  transaction locks rows, reads, and commits or aborts in separate steps; a claim skips locked
  rows and every other statement waits for them. The invariants are split over
  `DeliveryLeases`, `DeliverySends`, `DeliveryOutcomes`, `DeliveryFanout`, `DeliveryReferences`,
  `MonitorLeases`, `MonitorProbes`, `MonitorIncidents` and `EventSources`; the main results are in
  `DeliveryTheorems`, `FanoutHistory`, `MonitorTheorems`, `MonitorClaims` and `MonitorSettings`;
  `DeliverySteps`, `DeliveryClaims` and `MonitorSteps` say column by column when a step goes on and
  what it writes, and `StatisticsValues` what an answer says of the rows left.
* **Imperative classes** in the form of the source: the in-memory repositories, the check,
  fan-out, member, refresh and monitor services, the retention pass, the wave loops of worker
  and scheduler, and the browser stores. Each method is proved against the pure steps.
* **Simulations** (`DeliverySimulation`, `MonitorSimulation`, `Retention.PassIsProtocolStep`):
  with no row locked, an operation in memory is a run of the protocol's steps with the same
  tables before and after. `StatisticsProjection` takes every run of the monitor protocol to a
  run of the check table that the statistics protocol works on.

These assumptions hold throughout: identifiers and tokens are new when generated; one clock that
never goes back is shared; a fired timeout stops its task at once; all notification workers run
with one configuration (lease, attempts, retry and timeouts), all schedulers with one lease grace,
all processes with one session life and one retention period, and none of these changes in a run.

## What the code does not promise

Where an expected property is false, the project proves when it holds and gives a run or an
input in which it fails:

* The send budget can be zero. The time spent reading the lease is subtracted twice, so three
  database timeouts in the lease do not cover the slowest schedule; five do, exactly
  (`Lease.BudgetAlwaysPositiveIff`, `Lease.BudgetCanVanish`). No send starts then; safety is not
  affected.
* A delivery can go to a destination that was disabled before the instant recorded as processed:
  a fan-out reads the enabled destinations, then its clock, and locks no destination
  (`FanoutHistory.DisabledDestinationGetsARow`; exactly when: `FanoutHistory.ExactAtTheClockIff`).
* An UP monitor can be at its failure threshold, or a DOWN one at its recovery threshold, after
  an edit (`MonitorState.LoweredThresholdBreaksIt`; exactly when: `CheckRecording.OverdueIff`).
* A non-partial statistics answer can change, because a check carries the instant at which its
  transaction created it and may commit later (`StatisticsProtocol.InFlightCheckChangesIt`; by
  one check at most: `StatisticsProtocol.NonPartialIsStable`), and it can be incomplete when a
  retention pass begins between the request's clock and its query
  (`StatisticsProtocol.LatePassHidesACheck`; exactly when: `StatisticsProtocol.CompleteIff`).
* A refresh token can be redeemed after it expired, by less than the request waited for the
  session's lock (`RefreshProtocol.RedemptionCanBeLate`; which requests:
  `RefreshProtocol.RefreshGoesOnIff`, `RefreshProtocol.CommitRedeems`).
* A store of the browser keeps showing `loading` when its newest load ends after the
  organization changed (`OrganizationLoad.FinishedButLoading`; exactly when:
  `OrganizationLoad.LeftLoadingIff`).
* A role change whose user has been deleted is reported as an error after the new role is
  written (`Members.MemberService.Manage`).

## Checking it

`dafny verify dfyconfig.toml` with Dafny 4.11.

## Model

| member | source | states |
|---|---|---|
| `DeliveryTheorems.RunHolds` | src/uptime_platform/notifications/worker.py:100-129 | every state of every run of the delivery protocol keeps the lease, send, outcome and fan-out invariants, whatever workers, crashes, expiries, users and retention interleave |
| `DeliveryTheorems.SendsNeverOverlap` | src/uptime_platform/notifications/worker.py:167-204 | two sends of one delivery never overlap: the earlier one has ended when the later one starts |
| `DeliveryTheorems.SendsFitTheirLease` | src/uptime_platform/notifications/worker.py:184-204 | every send ends, or will be stopped, at least one database timeout before its lease runs out |
| `DeliveryTheorems.SendsOwnTheirRow` | src/uptime_platform/notifications/worker.py:167-204 | a claim sends at most once, and while it sends its row carries its token and expiry and is unprocessed |
| `DeliveryTheorems.OutcomesAreFenced` | src/uptime_platform/notifications/sqlalchemy_repository.py:343-374 | outcomes are accepted only under the claim's own unexpired token and once per token over all deliveries; attempts counts exactly the accepted outcomes, stays within the maximum, and a success is the last outcome |
| `DeliveryTheorems.NoEarlyClaim` | src/uptime_platform/notifications/sqlalchemy_repository.py:295-303 | in every run, a delivery that may be claimed has attempts left, has not succeeded, and at least min(base doubled k - 1 times, max) seconds have passed since its k-th and latest attempt failed |
| `DeliveryTheorems.AttemptsTakeTime` | src/uptime_platform/notifications/service.py:55-64 | n accepted attempts of one delivery take at least the sum of their waits: base * (2^(n-1) - 1) seconds as long as no wait is capped |
| `DeliveryTheorems.ProcessedIsFinal` | src/uptime_platform/notifications/sqlalchemy_repository.py:361-374 | a processed delivery is never claimed or changed again and, once deleted, never returns |
| `DeliveryTheorems.RowsLeaveWithReason` | src/uptime_platform/retention/repository.py:41-63 | in every run, a delivery that was there and is gone left at a step that took its destination along, or after it was processed, released and its event fanned out; deleting events never takes a delivery along |
| `DeliveryTheorems.OnlyDoneOrOrphanedRowsGo` | src/uptime_platform/retention/repository.py:41-63 | one step of the former (helper): no other step takes a delivery away |
| `DeliveryTheorems.OneRowPerPair` | src/uptime_platform/notifications/sqlalchemy_repository.py:376-404 | an event and a destination have at most one delivery row in the whole history, deleted rows included |
| `DeliveryReferences.NoRowIsOrphaned` | src/uptime_platform/notifications/models.py:82-98 | in every run, the event and the destination of a delivery row are there as long as the row is |
| `DeliveryReferences.DropTakesItsRows` | src/uptime_platform/notifications/models.py:91-98 | deleting a destination takes exactly its own rows |
| `FanoutHistory.FanoutIsExact` | src/uptime_platform/notifications/service.py:107-140 | in every run, the deliveries a processed event has had are exactly one for each destination that was enabled for its organization at an instant of one open fan-out of the event, not later than the instant recorded as processed, when all of them were still there |
| `FanoutHistory.ExactAtTheClockIff` | src/uptime_platform/notifications/service.py:107-111 | between the read and the clock of that fan-out: they are those enabled at the recorded instant if and only if every destination written in between was left, by its last update or deletion there, as the read found it; if not, such a change was committed while the fan-out held the event, and a delivery too many is to a destination that is there but no longer enabled |
| `FanoutHistory.SwitchesAreUsers` | src/uptime_platform/notifications/in_memory_repository.py:51-82 | only an update or a deletion of a destination changes which are enabled |
| `FanoutHistory.InsertSucceedsIff` | src/uptime_platform/notifications/models.py:90-97 | a fan-out goes on from its insert if and only if every destination it read is still there; a deleted one fails it |
| `FanoutHistory.DisabledDestinationGetsARow` | src/uptime_platform/notifications/service.py:107-111 | a run in which a destination is disabled between the read and the clock and still gets its delivery |
| `DeliveryLeases.StepKeeps` | src/uptime_platform/notifications/worker.py:131-217 | every step keeps: an unexpired claim's row is exactly what the claim returned and no other transaction can change it |
| `DeliverySends.StepKeepsSends` | src/uptime_platform/notifications/worker.py:184-204 | every step keeps the account of sends: one per token, each inside its lease, none concurrent with another for its delivery |
| `DeliveryOutcomes.StepKeepsOutcomes` | src/uptime_platform/notifications/sqlalchemy_repository.py:343-374 | every step keeps the account of outcomes against attempts, schedule and spent tokens |
| `DeliveryOutcomes.ScheduleTakes` | src/uptime_platform/notifications/service.py:80-89 | a valid outcome history takes the sum of the waits between its attempts (helper) |
| `DeliveryOutcomes.WaitsAddUp` | src/uptime_platform/notifications/service.py:80-89 | the waits of n attempts below the cap add up to base * (2^(n-1) - 1) seconds |
| `DeliveryFanout.StepKeepsFan` | src/uptime_platform/notifications/service.py:103-140 | every step keeps births, pairs and fan-outs consistent: destinations read in one step, clock and rows in a later one, with concurrent fan-outs, deletions and retention |
| `DeliveryFanout.NoConflict` | src/uptime_platform/notifications/sqlalchemy_repository.py:394-396 | no insert of an open fan-out meets a row of its pair, so the conflict clause never silently drops a delivery |
| `Lease.SendEndsBeforeExpiry` | src/uptime_platform/notifications/worker.py:184-187 | a send of the computed budget ends a database timeout before the lease, wherever the database read fell in between |
| `Lease.BudgetAtLeastSlowest` | src/uptime_platform/notifications/worker.py:74-77 | no schedule within the timeouts gets less than min(notification timeout, lease - 5 * database timeout) |
| `Lease.BudgetAlwaysPositiveIff` | src/uptime_platform/notifications/worker.py:184-192 | the budget is always positive if and only if the effective lease exceeds five database timeouts, and always full if and only if it exceeds the notification timeout by five |
| `Lease.BudgetCanVanish` | src/uptime_platform/notifications/worker.py:184-192 | a one-second lease setting with five-second timeouts has a schedule that leaves no time to send |
| `DeliverySteps.LoadGoesOnIff` | src/uptime_platform/notifications/worker.py:171-175 | a task goes on past loading exactly if its event and destination are there and of one organization |
| `DeliverySteps.ReadGoesOnIff` | src/uptime_platform/notifications/sqlalchemy_repository.py:324-341 | it goes on past the lease exactly if the row carries its token, is unprocessed and its expiry lies ahead; the time left is the time to the expiry |
| `DeliverySteps.SendStartsIff` | src/uptime_platform/notifications/worker.py:184-204 | a send starts exactly if more than a database timeout is left after the time that has passed, with the shorter of that rest and the notification timeout as its deadline |
| `DeliverySteps.SendEndsWithResult` | src/uptime_platform/notifications/service.py:37-78 | a send that is answered, refused or timed out has a result with one more attempt and the next instant; any other exception ends the task |
| `DeliverySteps.OutcomeAcceptedIff` | src/uptime_platform/notifications/sqlalchemy_repository.py:343-366 | the outcome is accepted exactly if the row carries the claim's token, is unprocessed and its expiry lies ahead |
| `DeliverySteps.OutcomeIsWritten` | src/uptime_platform/notifications/sqlalchemy_repository.py:367-374 | an accepted outcome writes the result's columns and ends the lease, on its own row only |
| `DeliverySteps.ClaimStartsTasks` | src/uptime_platform/notifications/sqlalchemy_repository.py:309-322 | a committed claim leases its rows for the larger of the setting and one send with three database timeouts and a second, and starts their tasks exactly if it returns |
| `DeliverySteps.ReleaseFrees` | src/uptime_platform/notifications/sqlalchemy_repository.py:406-430 | a committed release frees the rows that carry its tokens and leaves the others |
| `DeliverySteps.CrashStops` | src/uptime_platform/notifications/worker.py:131-143 | a crash ends the worker's tasks and sends where they are and leaves its leases to run out |
| `DeliverySteps.InsertedRowsAreDue` | src/uptime_platform/notifications/service.py:111-133 | an inserted delivery is of its event and destination, due at the instant of the fan-out, without attempts, error or lease |
| `DeliverySteps.FanOutIsCommitted` | src/uptime_platform/notifications/service.py:133-140 | a committed fan-out adds its rows, marks its events processed at their own instants and leaves everything else |
| `DeliverySteps.StampReadsTheClock` | src/uptime_platform/notifications/sqlalchemy_repository.py:309-315 | a claim's lease counts from the clock that is read when its rows have been chosen |
| `DeliverySteps.OutcomeIsOfItsSend` | src/uptime_platform/notifications/sqlalchemy_repository.py:343-374 | an outcome is that of its task, from the instant its send ended |
| `Deliveries.RetryDelayGrows` | src/uptime_platform/notifications/service.py:80-89 | retry delays never decrease, never exceed the cap, and each below the cap is followed by its double, capped; RetryDelayIs gives their values |
| `Deliveries.RetryDelayIs` | src/uptime_platform/notifications/service.py:80-89 | the delay after the k-th attempt is the base doubled k - 1 times or the cap, whichever is less; after the first it is min(base, cap) |
| `Deliveries.DefaultWaits` | src/uptime_platform/notifications/service.py:80-89 | with the defaults 5 and 300: 5, 10, 20, 40, 80 and 160 seconds, then always 300 |
| `Deliveries.AttemptIsAccounted` | src/uptime_platform/notifications/service.py:37-78 | what an attempt changes and what it leaves alone, for success, reported failure, timeout and any other exception: the count, the instants, the wait in seconds and the error text with its bound |
| `Deliveries.RemainingLease` | src/uptime_platform/notifications/sqlalchemy_repository.py:324-341 | time is left only under the row's own token, unprocessed and unexpired, and it is the time to the expiry |
| `Deliveries.WriteOutcomeOfProcess` | src/uptime_platform/notifications/sqlalchemy_repository.py:367-372 | the columns an outcome writes are all that processing changed |
| `Selection.FirstOfUnique` | src/uptime_platform/notifications/sqlalchemy_repository.py:304-308 | the first rows in (due time, id) order under a limit are determined |
| `Selection.PrefixIsFirst` | src/uptime_platform/notifications/in_memory_repository.py:140-142 | sorting by that pair and slicing gives those rows |
| `Selection.Sort` | src/uptime_platform/notifications/in_memory_repository.py:140 | sorts the candidates into strictly ascending order |
| `DeliveryRepository.InMemoryDeliveries.ClaimPending` | src/uptime_platform/notifications/in_memory_repository.py:116-157 | takes exactly the first due rows under distinct new tokens with the common expiry and leaves every other row alone; a claimed row was unprocessed, with attempts left, due and under no lease or an expired one, and when fewer than the limit come back no such row is left; refuses non-positive limits |
| `DeliveryClaims.ChosenRowIsFree` | src/uptime_platform/notifications/sqlalchemy_repository.py:294-303 | a chosen row is held by no transaction, not excluded, unprocessed, with attempts left, due, and under no lease or one that has run out |
| `DeliveryClaims.ShortClaimTakesAll` | src/uptime_platform/notifications/sqlalchemy_repository.py:294-308 | and every such row is chosen by a claim that returns fewer than its limit, also the rows of a worker that crashed |
| `DeliveryClaims.FullClaimTakesTheOldest` | src/uptime_platform/notifications/sqlalchemy_repository.py:304-308 | a full claim leaves such a row only for rows that were due before it, or at once with a smaller id |
| `DeliveryClaims.CrashedClaimIsTakenOver` | src/uptime_platform/notifications/sqlalchemy_repository.py:299-302 | a run: claim, crash, no claim while the lease lasts, takeover by another worker at the expiry |
| `DeliveryRepository.InMemoryDeliveries.Update` | src/uptime_platform/notifications/in_memory_repository.py:159-170 | replaces the row only while its lease remains, and discards the result otherwise |
| `DeliveryRepository.InMemoryDeliveries.CreateIfMissing` | src/uptime_platform/notifications/in_memory_repository.py:187-202 | adds the row exactly when its pair has none |
| `DeliveryRepository.InMemoryDeliveries.Release` | src/uptime_platform/notifications/in_memory_repository.py:204-223 | clears the lease exactly when the token matches |
| `DeliveryRepository.InMemoryDestinations.GetEnabled` | src/uptime_platform/notifications/in_memory_repository.py:84-92 | lists each enabled destination of the organization once |
| `DeliveryRepository.InMemoryDestinations.Update` | src/uptime_platform/notifications/in_memory_repository.py:51-65 | updates a destination only inside its organization |
| `DeliveryRepository.InMemoryDestinations.Delete` | src/uptime_platform/notifications/in_memory_repository.py:67-82 | deletes a destination only inside its organization |
| `DeliverySimulation.ClaimsAgree` | src/uptime_platform/notifications/sqlalchemy_repository.py:294-315 | with no row locked the SQL claim takes the same rows as the in-memory claim |
| `DeliverySimulation.ClaimSimulates` | src/uptime_platform/notifications/sqlalchemy_repository.py:283-322 | an in-memory claim is select, stamp and commit of the protocol, with the same rows and the same running claims |
| `DeliverySimulation.UpdateSimulates` | src/uptime_platform/notifications/sqlalchemy_repository.py:343-374 | an in-memory update is lock, check and commit of the protocol: accepted or discarded alike |
| `DeliverySimulation.ReleaseSimulates` | src/uptime_platform/notifications/sqlalchemy_repository.py:406-430 | an in-memory release is a release transaction of the protocol |
| `DeliverySimulation.FanOutSimulates` | src/uptime_platform/notifications/service.py:103-140 | an in-memory fan-out of one event is begin, read, insert and commit of the protocol |
| `Fanout.FanoutService.FanOut` | src/uptime_platform/notifications/service.py:103-140 | creates one delivery for each enabled destination of the organization that has none, due at once and without attempts, and marks the event processed at the same instant |
| `Fanout.InMemoryOutbox.ClaimPending` | src/uptime_platform/outbox/in_memory_repository.py:24-34 | returns pending events oldest first, as many as the limit allows, and all of them when fewer come back |
| `Fanout.InMemoryOutbox.Update` | src/uptime_platform/outbox/in_memory_repository.py:36-45 | replaces an existing event only |
| `NotificationWorker.Worker.RunOnce` | src/uptime_platform/notifications/worker.py:100-129 | terminates; on every exit each claimed wave went to release; no wave is empty or exceeds the concurrency, their sum stays within the batch, no delivery comes twice, and a wave that is smaller than both allow found nothing else due; a cycle that ends before the batch is full ends with a claim that finds nothing else; the heartbeat is given exactly when all tasks and releases succeeded |
| `NotificationWorker.Worker.RunWave` | src/uptime_platform/notifications/worker.py:106-126 | one pass claims, processes and releases the same claims, whether or not the task group raises; after a pass that went well no token of the wave is on its row |
| `NotificationWorker.Worker.Release` | src/uptime_platform/notifications/worker.py:145-158 | a successful release leaves none of the wave's tokens on its row, a failed one changes nothing |
| `NotificationWorker.Worker.Claim` | src/uptime_platform/notifications/worker.py:131-143 | claims at most the limit, none of the excluded and none twice: due deliveries with attempts left, leased for the larger of the setting and one send with three database timeouts and a second; when fewer than the limit come back, nothing else was due |
| `Waves.NoneTwiceMeans` | src/uptime_platform/notifications/worker.py:113 | as many attempted ids as claims means that no claim repeats an id |
| `MonitorState.FoldIsDeclarative` | src/uptime_platform/monitors/state.py:9-47 | the fold of check results from PENDING equals the declarative status and trailing-run counters, for all result sequences and thresholds |
| `MonitorState.UpIsBelowThreshold` | src/uptime_platform/monitors/state.py:33-47 | with fixed thresholds an UP monitor is below the failure threshold and a DOWN one below the recovery threshold |
| `MonitorState.ResultCounts` | src/uptime_platform/monitors/state.py:9-47 | one result leaves a paused monitor as it is; any other moves the two counters and the status as the thresholds say, and nothing else |
| `MonitorState.LoweredThresholdBreaksIt` | src/uptime_platform/monitors/service.py:322-331 | an input: an edit that lowers the threshold leaves an UP monitor at the threshold |
| `MonitorState.ResultsSettle` | src/uptime_platform/monitors/state.py:26-47 | any result that counts takes a monitor off a reached threshold |
| `CheckRecording.EditOverdueIff` | src/uptime_platform/monitors/service.py:322-331 | an edit leaves a monitor at a reached threshold exactly if the threshold it results in is at or below the counter before the edit |
| `CheckRecording.OverdueIff` | src/uptime_platform/monitors/service.py:322-331 | after any history with thresholds of at least one, a monitor is UP or DOWN at a reached threshold if and only if some edit set that threshold at or below the counter and no later counted check or edit of it settled the monitor |
| `CheckRecording.ReplayIsFold` | src/uptime_platform/checks/service.py:128-159 | checks outside maintenance fold into the state, whatever edits and windows lie between them |
| `CheckRecording.StateFromHistory` | src/uptime_platform/checks/service.py:128-159 | status and counters are the declarative reading of the results outside maintenance |
| `CheckRecording.EditsAloneDecideSettings` | src/uptime_platform/monitors/service.py:284-324 | edits alone decide the settings, checks alone the state: neither touches the other's columns |
| `CheckRecording.ScheduleFromLastCheck` | src/uptime_platform/checks/service.py:133-159 | the next check is due one interval after the last check, in maintenance too, and an edit does not move it |
| `MonitorTheorems.RunHolds` | src/uptime_platform/scheduler/scheduler.py:67-92 | every state of every run of the monitor protocol keeps the lease, probe and incident invariants |
| `MonitorTheorems.ProbesNeverOverlap` | src/uptime_platform/scheduler/scheduler.py:94-123 | probes of one monitor never overlap and end by their lease |
| `MonitorTheorems.TokensRecordOnce` | src/uptime_platform/monitors/sqlalchemy_repository.py:118-126 | a claim token records at most one check, for its own monitor, verified before the lease ran out although the lock may have come late |
| `MonitorTheorems.LeasesAreTheirHolders` | src/uptime_platform/monitors/sqlalchemy_repository.py:177-187 | an unexpired lease is only taken off its row by a check or a release under its own token; edits, manual checks and claims leave it alone |
| `MonitorTheorems.NoLostUpdate` | src/uptime_platform/monitors/sqlalchemy_repository.py:189-216 | in every state the row is the serial replay of the committed checks and edits, although each writes back a whole row it read |
| `MonitorTheorems.HistoryGrows` | src/uptime_platform/checks/service.py:113-175 | each commit of a check or an edit adds exactly its operation to the history, and no other step changes it |
| `MonitorClaims.ChosenMonitorWasDue` | src/uptime_platform/monitors/sqlalchemy_repository.py:141-147 | in every run, a chosen monitor is held by no transaction, not excluded, not paused and under no unexpired lease, and one interval of that moment has passed since its last committed check |
| `MonitorClaims.ShortClaimTakesAll` | src/uptime_platform/monitors/sqlalchemy_repository.py:141-159 | and every such monitor is chosen by a claim that returns fewer than its limit |
| `MonitorClaims.FullClaimTakesTheOldest` | src/uptime_platform/monitors/sqlalchemy_repository.py:148-152 | a full claim leaves such a monitor only for monitors that were due before it, or at once with a smaller id |
| `MonitorClaims.ClaimLeases` | src/uptime_platform/monitors/sqlalchemy_repository.py:160-175 | a committed claim leases each row until the claim's clock plus the monitor's timeout and the grace |
| `MonitorClaims.ClaimProbes` | src/uptime_platform/scheduler/scheduler.py:94-111 | a claim that returns starts each probe at once, with the whole timeout of its monitor before it |
| `EventSources.EventsHaveSources` | src/uptime_platform/checks/service.py:187-239 | in every run, each outbox event is unprocessed, of the organization its monitor was created in and has, and of the instant of a committed check of that monitor that counted: a failure for OPENED, a success for RESOLVED |
| `EventSources.IncidentsHaveSources` | src/uptime_platform/checks/service.py:187-239 | each incident starts with a committed failure of its monitor and, once resolved, ends with a committed success |
| `EventSources.StepKeepsSources` | src/uptime_platform/checks/service.py:177-239 | every step keeps that account (invariant) |
| `MonitorSettings.RowHasLastEdits` | src/uptime_platform/monitors/service.py:284-324 | in every run, each of the six settings of a monitor is what its last committed edit that names it says, or what it was created with |
| `MonitorSettings.SettingsAreLastEdits` | src/uptime_platform/monitors/service.py:284-324 | the same for any sequence of checks and edits |
| `MonitorSteps.LeaseVerifiedIff` | src/uptime_platform/monitors/sqlalchemy_repository.py:109-128 | a leased check goes on exactly if its monitor is there and carries its token, unexpired at the instant after the lock |
| `MonitorSteps.ProbeIsRecorded` | src/uptime_platform/scheduler/scheduler.py:112-123 | what a probe found is what the check of its claim records, under its token, for its monitor |
| `MonitorSteps.EffectIs` | src/uptime_platform/checks/service.py:128-159 | a check outside every window of its monitor counts, one inside moves the schedule by one interval and does nothing else; only a failure opens an incident and only a success resolves one |
| `MonitorSteps.CheckIsWritten` | src/uptime_platform/checks/service.py:159-175 | a committed check writes its monitor, ends its own lease and no other and is logged once |
| `MonitorSteps.ReleaseFrees` | src/uptime_platform/monitors/sqlalchemy_repository.py:177-187 | a committed release frees the rows that carry its tokens and leaves the others |
| `MonitorSteps.DeletionCascades` | src/uptime_platform/maintenance/models.py:27-34 | deleting a monitor takes exactly its incidents and windows; its events stay |
| `MonitorSteps.CrashStops` | src/uptime_platform/scheduler/scheduler.py:94-123 | a crash ends the probes of its wave and leaves their leases to run out |
| `MonitorSteps.StampReadsTheClock` | src/uptime_platform/monitors/sqlalchemy_repository.py:159-165 | leases count from the clock that is read when the rows have been chosen |
| `MonitorSteps.CheckIsCreatedNow` | src/uptime_platform/checks/service.py:113-126 | a check gets its instant when it is created |
| `MonitorSteps.CheckReadsTheRow` | src/uptime_platform/monitors/sqlalchemy_repository.py:94-128 | a manual check works on the whole row as it stands when it has locked it |
| `MonitorSteps.EditReadsTheRow` | src/uptime_platform/monitors/service.py:284-300 | and so does an edit |
| `MonitorTheorems.StatusIsDeclarative` | src/uptime_platform/monitors/state.py:9-47 | in every run, with unchanged thresholds, a monitor's status and counters are read off its results |
| `MonitorTheorems.RowOverdueIff` | src/uptime_platform/monitors/service.py:322-331 | the same for every row of every run, whatever commits interleave |
| `MonitorTheorems.DownIffOneOpenIncident` | src/uptime_platform/incidents/models.py:67-72 | a monitor is DOWN exactly when it has one open incident, and it never has two |
| `MonitorTheorems.EventsAlternate` | src/uptime_platform/checks/service.py:187-239 | a monitor's outbox events alternate, OPENED first, each RESOLVED naming the incident opened before it |
| `MonitorTheorems.RecoveryFindsItsIncident` | src/uptime_platform/checks/service.py:214-220 | a recovery always finds its open incident, so the early return is unreachable |
| `MonitorLeases.StepKeeps` | src/uptime_platform/monitors/sqlalchemy_repository.py:130-187 | every step keeps: a transaction that holds a monitor still has the row it read, and a live probe owns its row's lease |
| `MonitorLeases.ClaimedProbesJoin` | src/uptime_platform/scheduler/scheduler.py:94-111 | a claim that returns within the lease grace leaves its probe a deadline inside the lease |
| `MonitorProbes.StepKeepsProbes` | src/uptime_platform/checks/service.py:113-175 | every step keeps the accounts of probes, tokens and recorded checks |
| `MonitorIncidents.StepKeepsIncidents` | src/uptime_platform/checks/service.py:177-239 | every step keeps the replay, the one open incident and the alternation of events |
| `MonitorRepository.InMemoryMonitors.ClaimDue` | src/uptime_platform/monitors/in_memory_repository.py:76-111 | takes exactly the first due monitors under distinct new tokens, each with its own expiry; a claimed monitor was due, not paused and under no unexpired claim, and when fewer than the limit come back no such monitor is left; refuses non-positive limits |
| `MonitorRepository.InMemoryMonitors.GetByIdForUpdate` | src/uptime_platform/monitors/in_memory_repository.py:52-74 | answers exactly when the monitor exists, the organization fits and the lease holds |
| `MonitorRepository.InMemoryMonitors.ReleaseCheckLease` | src/uptime_platform/monitors/in_memory_repository.py:113-118 | removes a claim exactly when the token matches |
| `MonitorRepository.InMemoryMonitors.Delete` | src/uptime_platform/monitors/in_memory_repository.py:131-147 | removes monitor and claim together, inside the organization only |
| `MonitorRepository.MonitorService.Update` | src/uptime_platform/monitors/service.py:284-324 | each setting asked for becomes as asked, the configuration merged, and everything else of the monitor and all claims stay; writes nothing exactly if the monitor is missing or the partial configuration is invalid or makes a HEAD check look into a body |
| `MonitorConfig.MergesCompose` | src/uptime_platform/monitors/service.py:121-214 | two accepted partial configurations in a row do what one does that has the later entries, rejections included, where null clears the status codes and the body text and nothing else; a repeated one changes nothing more |
| `MonitorConfig.MergeKeepsConsistency` | src/uptime_platform/monitors/service.py:175-179 | a merge never yields a HEAD check with a body text, and an empty one changes nothing exactly if the current configuration is not one |
| `MonitorConfig.MergeSaysBoth` | src/uptime_platform/monitors/service.py:134-214 | a merged configuration, written out key by key, says what the later entries over the current ones say |
| `MonitorConfig.WrittenOutComesBack` | src/uptime_platform/monitors/service.py:134-214 | writing a configuration out and merging it into another one of its kind gives it back |
| `MonitorConfig.MergedIff` | src/uptime_platform/monitors/service.py:121-214 | an update of a configuration within its limits is accepted exactly if it is well-formed, names own keys only, stays within the limits and gives no HEAD check a body text |
| `MonitorSimulation.ClaimsAgree` | src/uptime_platform/monitors/sqlalchemy_repository.py:141-159 | with no row locked the SQL claim takes the same monitors as the in-memory claim |
| `MonitorSimulation.ClaimSimulates` | src/uptime_platform/monitors/sqlalchemy_repository.py:130-175 | an in-memory claim is begin, select, stamp and commit of the protocol |
| `MonitorSimulation.ManualRecordSimulates` | src/uptime_platform/checks/service.py:105-175 | a manual check in memory is lock, create, decide and commit of the protocol |
| `MonitorSimulation.LeasedRecordSimulates` | src/uptime_platform/checks/service.py:105-175 | a leased check in memory is lock, verify, create, decide and commit of the protocol, or is dropped when the lease is lost |
| `MonitorSimulation.ManualRecordJoins` | src/uptime_platform/checks/service.py:105-175 | from matching tables, one record call without a token leaves the rows, incidents and events that the protocol's lock, creation, decision and commit leave |
| `MonitorSimulation.LeasedRecordJoins` | src/uptime_platform/checks/service.py:105-175 | the same with a token, and neither writes anything when the lease is lost |
| `CheckService.CheckService.Record` | src/uptime_platform/checks/service.py:105-175 | a check is stored and moves its monitor by one interval exactly when the monitor exists and its lease holds; outside a window, a monitor that goes down opens an incident at that instant and announces it to its own organization, one that comes up resolves its open incident at that instant and announces that, and nothing else is written |
| `CheckService.CheckService.HandleIncidentTransition` | src/uptime_platform/checks/service.py:177-239 | a monitor that goes down gets an incident open from that instant and an event for its own organization that names it; one that comes up has its open incident resolved at that instant and an event that names it; otherwise nothing is written |
| `CheckService.InMemoryIncidents.GetOpenByMonitorId` | src/uptime_platform/incidents/in_memory_repository.py:27-38 | finds an open incident of the monitor if there is one |
| `CheckService.InMemoryWindows.GetActive` | src/uptime_platform/maintenance/in_memory_repository.py:47-64 | finds the active window that starts last, if any |
| `Scheduler.Scheduler.RunOnce` | src/uptime_platform/scheduler/scheduler.py:67-92 | terminates; on every exit each claimed wave went to release; no wave is empty or exceeds the concurrency, their sum stays within the batch, no monitor comes twice, and a wave that is smaller than both allow found nothing else due; a cycle that ends before the batch is full ends with a claim that finds nothing else; the heartbeat is given exactly when all checks and releases succeeded |
| `Scheduler.Scheduler.RunWave` | src/uptime_platform/scheduler/scheduler.py:71-89 | one pass claims, checks and releases the same claims, whether or not the task group raises; after a pass that went well no token of the wave is on its row |
| `Scheduler.Scheduler.Release` | src/uptime_platform/scheduler/scheduler.py:156-168 | a successful release leaves none of the wave's tokens on its row, a failed one changes nothing |
| `Scheduler.Scheduler.Claim` | src/uptime_platform/scheduler/scheduler.py:94-103 | claims at most the limit, none of the excluded and none twice: due monitors that are not paused, each leased for its own timeout and the grace; when fewer than the limit come back, nothing else was due |
| `Retention.Repository.Cleanup` | src/uptime_platform/retention/repository.py:19-64 | deletes one batch of each table in order, oldest first, skipping locked rows, and reports the counts |
| `Retention.PassTakesTheExpired` | src/uptime_platform/retention/repository.py:20-63 | of each table go only unlocked rows older than its own number of days, resolved incidents, settled deliveries and events without deliveries, the oldest first; with room left in a batch, no such row is left |
| `Retention.SelectBatch` | src/uptime_platform/retention/repository.py:74-81 | a batch is as many candidates as the limit allows, none older left behind |
| `Retention.CascadeRemovesNothing` | src/uptime_platform/notifications/models.py:82-89 | deleting events never cascades to a delivery |
| `Retention.PassesAreSafe` | src/uptime_platform/retention/repository.py:19-64 | any sequence of passes, each with its own clock and locked rows, leaves open incidents, unprocessed events, pending or leased deliveries and checks younger than every cutoff exactly as they are, and no delivery without its event |
| `Retention.CleanupIsSafe` | src/uptime_platform/retention/repository.py:19-64 | the same of one pass (helper) |
| `Retention.PassIsBounded` | src/uptime_platform/retention/repository.py:66-87 | a pass removes at most one batch from each table |
| `Retention.PassIsProtocolStep` | src/uptime_platform/retention/repository.py:41-63 | a pass over the protocol's tables is one of its retention steps for each table |
| `Retention.PassShrinks` | src/uptime_platform/retention/repository.py:19-64 | at a fixed instant with no locks a pass strictly shrinks the number of removable rows while there are any |
| `Retention.PassesClear` | src/uptime_platform/retention/repository.py:19-64 | repeated passes leave no removable row after at most as many passes as there were rows |
| `Statistics.WindowOfLive` | src/uptime_platform/statistics/sqlalchemy_repository.py:57-61 | deleting rows outside a window does not change what the window selects |
| `StatisticsProtocol.CompleteIff` | src/uptime_platform/statistics/service.py:70-81 | in any state, partial or not, an answer equals the aggregates over every check ever committed in its window if and only if no deleted check is of the window |
| `StatisticsValues.AnswerCounts` | src/uptime_platform/statistics/sqlalchemy_repository.py:36-70 | for every table, the successful and failed counts are the numbers of rows left of the monitor in the window with that result |
| `StatisticsValues.UptimeIs` | src/uptime_platform/statistics/sqlalchemy_repository.py:72-78 | the uptime is absent exactly for an empty window, else 100 * successful / total: 100 only without a failure, 0 only without a success |
| `StatisticsValues.AverageIs` | src/uptime_platform/statistics/sqlalchemy_repository.py:45-53 | the average is absent exactly without a success, and times the successes it is the sum of their response times, row by row |
| `StatisticsValues.AverageIsBetween` | src/uptime_platform/statistics/sqlalchemy_repository.py:45-53 | it lies between any bounds of those response times |
| `StatisticsValues.AggregatesJoin` | src/uptime_platform/statistics/sqlalchemy_repository.py:34-61 | the aggregates of joined windows add up, one row at a time |
| `StatisticsValues.AvailableFromIs` | src/uptime_platform/statistics/sqlalchemy_repository.py:26-33 | the available history starts at the oldest row left of the monitor, in whatever window |
| `StatisticsValues.EndsAre` | src/uptime_platform/statistics/sqlalchemy_repository.py:55-61 | first and last are the ends of the rows left in the window |
| `StatisticsValues.PartialIff` | src/uptime_platform/statistics/service.py:70-81 | an answer is partial if and only if the window holds no row, starts before the monitor, before every row left of it or before the retention limit, or ends after the request |
| `StatisticsValues.SparedCountsAll` | src/uptime_platform/statistics/service.py:70-81 | in every run, over a window that no pass has reached, the counts are those of every check ever committed |
| `StatisticsValues.WindowIs` | src/uptime_platform/statistics/service.py:53-62 | the window is the two given ends, or 1, 7 or 30 days that end now, one day by default |
| `StatisticsProtocol.SparedIsComplete` | src/uptime_platform/statistics/service.py:70-81 | in every run that holds when the window starts at or after the cutoff of the latest pass, whenever that pass began |
| `StatisticsProtocol.NonPartialIsComplete` | src/uptime_platform/statistics/service.py:70-81 | so a non-partial answer is complete if no retention pass began between the request's clock and its query |
| `StatisticsProtocol.AnswersAreStable` | src/uptime_platform/checks/service.py:113-126 | two answers for one past window that passes spare differ by one check at most, the one that the monitor's locked transaction had created at the first request, and are equal if and only if no check of the window was committed in between |
| `StatisticsProtocol.NonPartialIsStable` | src/uptime_platform/checks/service.py:113-126 | the same of two non-partial answers when no pass began between a request's clock and its query |
| `StatisticsProtocol.SettledAnswerStays` | src/uptime_platform/statistics/service.py:70-81 | with no open check of the monitor in the window a non-partial answer does not change while it stays non-partial |
| `StatisticsProtocol.InFlightCheckChangesIt` | src/uptime_platform/checks/sqlalchemy_repository.py:26-39 | a run in which a check committed late changes a non-partial answer |
| `StatisticsProtocol.LatePassHidesACheck` | src/uptime_platform/statistics/service.py:53-81 | a run in which a pass that begins after the request read its clock, and skips a row that another pass has locked, makes a non-partial answer incomplete |
| `StatisticsProtocol.LeftChecksHaveMonitors` | src/uptime_platform/checks/models.py:1-40 | in every run, a check that is left belongs to a monitor that is there |
| `StatisticsProtocol.GoneIs` | src/uptime_platform/retention/repository.py:28-33 | a deletion and a pass take the checks they are for, and nothing else takes one |
| `StatisticsProjection.RunProjects` | src/uptime_platform/checks/service.py:113-126 | every run of the monitor protocol is, state by state, a run of the check table that statistics read: the same monitors, committed checks and open checks, so that the one open check of each monitor is what its row lock admits |
| `StatisticsProjection.StepProjects` | src/uptime_platform/checks/sqlalchemy_repository.py:26-44 | a check begins there when its transaction creates it under the monitor's row lock and commits or aborts with it; every other step of the protocol leaves the table alone |
| `StatisticsProjection.RetainProjects` | src/uptime_platform/retention/repository.py:28-33 | a retention pass over the table fits any state of the monitor protocol |
| `Members.AllowedChangeKeepsOwner` | src/uptime_platform/organizations/member_service.py:107-161 | a change that is not refused leaves an owner where there was one and other organizations alone |
| `Members.RefusedLastOwnerIsTheLast` | src/uptime_platform/organizations/member_service.py:208-220 | the last-owner refusal is exact: the change would have left no owner |
| `Members.RefusalIs` | src/uptime_platform/organizations/member_service.py:178-220 | which refusal is given and when none is: the missing member, then the roles that owners, admins and others may handle, then the last owner |
| `Members.ChangedIs` | src/uptime_platform/organizations/member_service.py:107-161 | a change gives its member the new role or takes it away and leaves the others |
| `Members.MemberService.Manage` | src/uptime_platform/organizations/member_service.py:107-176 | changes or removes the member exactly when nothing refuses it, with the refusals in their order; a user missing after a role change is an error that leaves the role changed |
| `Members.MemberService.Add` | src/uptime_platform/organizations/member_service.py:72-105 | adds a new membership exactly when the actor may assign the role and a user with the lower-cased email exists and is no member yet |
| `Members.AuthService.Register` | src/uptime_platform/auth/service.py:49-117 | fails exactly when the lower-cased email is taken, so emails that differ in case are one account; becomes owner of the default organization exactly while that has no member, and of a new one otherwise |
| `Members.Repositories.CountOwners` | src/uptime_platform/organizations/member_service.py:211-217 | counts the owners of one organization |
| `MembersProtocol.OwnedStaysOwned` | src/uptime_platform/organizations/member_service.py:107-220 | in every run an organization that has an owner always has one, under concurrent changes, removals, additions and registrations |
| `MembersProtocol.DefaultIsClaimedOnce` | src/uptime_platform/auth/service.py:64-92 | the default organization is claimed by at most one registration and has an owner from then on |
| `MembersProtocol.StepKeeps` | src/uptime_platform/organizations/sqlalchemy_repository.py:105-110 | every step keeps the owners, with the organization lock held from the decision to the commit |
| `MembersProtocol.DecidedIff` | src/uptime_platform/organizations/member_service.py:107-161 | a change is decided on exactly if its member is there and nothing refuses it at that moment |
| `MembersProtocol.DecidedChangeIsMade` | src/uptime_platform/organizations/member_service.py:107-161 | a decided change is what its commit does to the member it found |
| `MembersProtocol.RegistrationOwns` | src/uptime_platform/auth/service.py:64-117 | a committed registration makes its user an owner, of the default organization exactly if it had been found free |
| `MembersProtocol.FreeIsRead` | src/uptime_platform/auth/service.py:64-92 | it is found free exactly if it is there and nobody belongs to it |
| `RefreshSessions.RotationConserves` | src/uptime_platform/auth/refresh_service.py:71-82 | a redemption conserves the number of usable sessions of every user |
| `RefreshSessions.RefreshService.Refresh` | src/uptime_platform/auth/refresh_service.py:49-82 | a token is redeemed exactly when its session is unrevoked and now is before its expiry; the session is revoked now and one new session of the same user lives for the configured days |
| `RefreshSessions.RefreshService.Revoke` | src/uptime_platform/auth/refresh_service.py:84-104 | revokes the unrevoked session of the token and nothing else |
| `RefreshSessions.RefreshService.Issue` | src/uptime_platform/auth/refresh_service.py:40-47 | adds one session of the user that lives for the configured days |
| `RefreshSessions.InMemorySessions.GetByHash` | src/uptime_platform/auth/in_memory_refresh_repository.py:25-33 | finds the session of a token hash |
| `RefreshSessions.InMemorySessions.Revoke` | src/uptime_platform/auth/in_memory_refresh_repository.py:35-53 | revokes only a session that is not revoked yet |
| `RefreshProtocol.TokensAreRedeemedOnce` | src/uptime_platform/auth/refresh_service.py:49-82 | in every run no token is redeemed twice, each redemption replaces one session by one of the same user, and it is late by less than the request waited |
| `RefreshProtocol.OneUsableSessionPerLogin` | src/uptime_platform/auth/refresh_service.py:71-82 | in every state each login has at most one unrevoked session |
| `RefreshProtocol.RefreshGoesOnIff` | src/uptime_platform/auth/refresh_service.py:53-77 | a request goes on from the lock if and only if a session of its token is unrevoked under the lock and had not expired when the request read the clock |
| `RefreshProtocol.CommitRedeems` | src/uptime_platform/auth/refresh_service.py:71-82 | whenever it then commits, it redeems its token, whatever the clock shows by then |
| `RefreshProtocol.LogoutRevokes` | src/uptime_platform/auth/refresh_service.py:84-104 | in every run, a logout revokes the session of its token at the instant it commits, and no other |
| `RefreshProtocol.RedemptionCanBeLate` | src/uptime_platform/auth/refresh_service.py:53-69 | a run in which a request reads its clock before the expiry, waits past it while another request holds the session's row, and redeems the token |
| `Version.ParseIsThePattern` | scripts/version.py:7-13 | splitting and checking the parts accepts exactly the strings that the pattern matches |
| `Version.ParsePrinted` | scripts/version.py:10-13 | parsing a printed version gives it back |
| `Version.PrintParsed` | scripts/version.py:10-13 | printing a parsed version gives the string back |
| `Version.NextIsGreater` | scripts/version.py:16-26 | a version is returned exactly for valid input that names a step or a greater version, and it parses and is greater |
| `Version.NamedStepsAreNearest` | scripts/version.py:18-22 | patch, minor and major go to the nearest version of their kind |
| `OrganizationLoad.OrganizationStore.LoadOrganizations` | frontend/src/stores/organizations.ts:38-67 | chooses the stored organization if it still exists, else the first, and counts a change of context |
| `OrganizationLoad.OrganizationStore.SelectOrganization` | frontend/src/stores/organizations.ts:69-84 | selects only a known organization, and counts only a change |
| `OrganizationLoad.OrganizationStore.Clear` | frontend/src/stores/organizations.ts:86-93 | forgets everything and counts a change |
| `OrganizationLoad.LoadingStore.Finish` | frontend/src/stores/organization-load.ts:37-52 | a result, an error and the end of loading are shown only while the load is current |
| `OrganizationLoad.VersionsNameContexts` | frontend/src/stores/organizations.ts:38-93 | in every run the version never decreases, and equal versions mean one unchanged organization |
| `OrganizationLoad.CurrentIsKnown` | frontend/src/stores/organizations.ts:38-103 | in every run the current organization is one of the list and the one kept in the browser |
| `OrganizationLoad.AppliedResultsAreNewest` | frontend/src/stores/organization-load.ts:28-41 | a result that is applied is of the newest load since the last clear, and the organization did not change in between, not even away and back |
| `OrganizationLoad.LoadingMeans` | frontend/src/stores/organization-load.ts:33-52 | loading is shown exactly while the newest load has not finished under its own context; shown data is of the newest load |
| `OrganizationLoad.LeftLoadingIff` | frontend/src/stores/organization-load.ts:37-52 | when the newest load ends, the store goes on loading if and only if the organization changed or was cleared since the load began, whatever the reply and even if it came back |
| `OrganizationLoad.FinishedButLoading` | frontend/src/stores/organization-load.ts:48-52 | a run in which that happens |
| `OrganizationLoad.StaleLoadLeavesLoading` | frontend/src/stores/organization-load.ts:48-52 | from then on only another load or a clear ends loading |

## Left out

- Network probes and senders: a probe returns any result and a send any reply within its timeout.
- Number of sends: not bounded by the maximum of attempts, because a crash after a send, or an exception other than a delivery error or a timeout, leaves the attempts as they were; no bound is claimed.
- Text of notifications, payload snapshots and URL redaction: an outbox event keeps only its type, monitor and incident.
- Event loop delays: a claimed probe starts when its claim returns, and a blocked loop that fires a timeout late is not modelled.
- Clock of a claim statement: it is read once for all rows, while PostgreSQL evaluates it row by row within the statement.
- Order of a fan-out batch: the protocol lets a fan-out lock any pending events, so nothing is claimed about which events come first there; the in-memory outbox returns the oldest first and breaks ties by id instead of insertion order.
- Iteration order of dictionaries: a lookup that returns the first match returns any match in the model.
- `InMemoryIncidentRepository.get_all` and the other listing queries, and creation of windows, destinations and organizations beyond storing a row.
- Deletion of organizations and users, with the cascades from them.
- Rounding of the uptime percentage and of the average response time to two digits; response times are reals.
- Statistics of a monitor that was deleted: the service answers nothing.
- Parameter validation by the API schemas, roles of API keys and the request plumbing around the services.
- Tokens, password hashes and keyed hashes: assumed new, unforgeable and different for different inputs.
- Parsing of a partial configuration: values of the wrong type, invalid URLs and unknown keys are one mark on the update.
- Lower case of an email: any function that the services are given, for the library's `str.lower`.
- Inserts of one fan-out: the clock and the inserts of one event are one step; a destination that disappears between two inserts fails the fan-out all the same.
- `version_files` and `update_version`: file contents; Python's limit of 4300 digits in one integer conversion.
- Other browser stores, views and the HTTP client: a store that loads is one view with the name of the load whose result it shows.
- Liveness: nothing is claimed about progress of an unfair scheduler.
