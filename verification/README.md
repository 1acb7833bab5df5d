# Verified model of the reactor-operations demo

This project models the parts of the demo whose guarantees hold over whole runs, and proves those guarantees in
Dafny 4.11. `dafny verify dfyconfig.toml` checks everything.

| Files | Models |
|---|---|
| `TelemetryProjection` | the Timescale consumer: at-least-once delivery made exactly-once by a dedup row |
| `SimopsState`, `WorkerReports`, `SimopsStore`, `RunLaunch`, `RunStart`, `RunStop`, `PublicationOutbox`, `StoppedOutbox` | the SimOps run control plane: worker facts, the in-memory store, the launch saga, the stop orchestrator, the outbox |
| `ArtifactDelivery`, `ArtifactDeliveryLaws` | batching of telemetry into artifacts and the delivery-attempt ledger |
| `ReactorWorkerSets` | Reactor Telemetry worker sets: caps, irreversible phases, credentials |
| `ArtifactForge`, `ArtifactForgeLaws` | the Artifact Forge ledger: eligibility, outcomes, caps |
| `OrderedRecord`, `FleetBoard`, `FleetBoardLedger`, `FleetBoardCash`, `FleetBoardEnding`, `FleetBoardSession` | the Fleet Board economy and its game session |
| `CivilCalendar`, `Rfc3339Text` | the closed-form civil calendar and its text |
| `SeedDerivation`, `ScenarioSampler`, `PressureCurve` | the memoised scenario sampler and the pressure curve |
| `SnapshotSession` | the workbench snapshot session with overlapping refreshes |
| `Prelude` | options, results, trimming, sequences without repetition |

How the model is put together:

- Objects that the source mutates are classes; their methods carry the source's loops and branches and are proved
  against functions on plain values. The laws over whole runs are lemmas about those functions.
- Failures are parameters. Every store, runtime, broker, writer, context and clock outcome a step can meet is an
  argument of that step, so a law over runs holds for every behaviour of the environment.
- Go maps are ranged over in an order of Go's own choosing. A method that does so takes that order as a parameter
  (`order`, `listing`) and is proved for all of them.
- Hashes are replaced by what they hash (set ids, source ids, attempt ids, event ids), floats by reals, and times by
  integers with Go's zero time at 0.

Where the code does something its names or comments do not suggest, the model follows the code:

- `UpdateRunLifecycle` hands the launch-observation deadline to `ensureSimopsRunState`, which ignores it: every
  transition clears the deadline (`SimopsStore.Transition`).
- A launch that fails after its streaming transition leaves the streaming intent queued on the failed run
  (`RunLaunch.LaunchUndone`).
- A stop error with an empty text counts as no error in the store (`RunStop.SilentErrorStops`), and each stop
  transition that finds the run stopped reopens its intent (`StoppedOutbox.StopReopensItsIntent`), so the ledger
  holds the stopped event once per reopening (`StoppedOutbox.StoppedPublishedPerReopening`). `StopRun` returns early
  when the run is stopped or complete (`simops_controller.go:229`), which keeps HTTP callers from reopening it
  (`StoppedOutbox.ControllerStopsOnce`).
- For a worker that was launched and compensated, or has a runtime resource, a failed launch stores a lifecycle that its
  state does not project to (`RunLaunch.FailedLaunchAgreesExactly`).
- An artifact whose run id differs from the run's only by blanks around it is filed with the run it names, if that is
  known (`RunLaunch.LaunchRun`).
- Without a distribution profile, a base pressure far enough below zero reverses collector and source lag
  (`ScenarioSampler.CollectorFollowsSource`).
- A grace of zero days does not remove a game that starts in debt (`FleetBoardEnding.RemovalIsSustainedDebt`), a
  negative insight reward makes insight negative (`FleetBoardLedger.InsightConserved`), and a job of duration zero or
  less takes one day (`FleetBoardLedger.JobsOnSchedule`).
- At most one write per delivery attempt is not at most one write per event: an event is handed over at most once per
  delivery (`ArtifactDeliveryLaws.HandedOncePerDelivery`), and a redelivered one may be handed over again
  (`ArtifactDeliveryLaws.UnknownEventsAreWrittenAgain`).
- Resuming a failed Artifact Forge request never asks the caps. If its run is seen running again it counts once more,
  which is within the caps exactly if a new request would have been (`ArtifactForgeLaws.RevivalIsCappedExactly`);
  stopping a failed run is one way to get there (`ArtifactForgeLaws.CapsNeedStandingVerdicts`).
- A listener that refreshes or disposes while a read is being published leaves a timer beside an active read or on a
  stopped session (`SnapshotSession.DrivenOnceExactly`).

## Model

| member | source | states |
|---|---|---|
| TelemetryProjection.RunTimescaleTelemetryConsumer | backend/slurm-gateway/internal/gateway/simops_consumers.go:29-78 | Under any script of save and commit faults the fetch/decode/project/save/commit loop leaves broker, tables and exit status as the pure loop `ConsumeAll` does |
| TelemetryProjection.TimescaleTelemetryStore.SaveProjection | backend/slurm-gateway/internal/gateway/simops_timescale_store.go:47-118 | One transaction: nothing at all on any fault before the commit, otherwise the dedup row alone decides whether a frame row and the larger offset are written, also when an applied commit is reported as failed |
| TelemetryProjection.ExactlyOnce | backend/slurm-gateway/internal/gateway/simops_consumers.go:29-78 | After any history of produced messages, store and commit failures and restarts: the frame table is the in-order filter-map of a log prefix, without duplicates; the offsets row is its maximum; the committed offset lies within it and no message of it was rejected |
| TelemetryProjection.ProjectionKeepsIdentity | backend/slurm-gateway/internal/gateway/simops_data_plane.go:43-97 | An event is projected exactly if it is well-formed telemetry, and the row is only blank in run or worker if both frame and event are |
| TelemetryProjection.OneRowPerMessage | backend/slurm-gateway/internal/gateway/simops_timescale_store.go:69-84 | Row by row: a telemetry message below the committed offset has exactly one row, no offset ever has two, and a row only exists for a telemetry message |
| TelemetryProjection.RowsAtPrefix | backend/slurm-gateway/internal/gateway/simops_timescale_store.go:86-101 | The in-order projection of a prefix has exactly one row for each of its telemetry offsets and none for any other |
| TelemetryProjection.CatchesUp | backend/slurm-gateway/internal/gateway/simops_consumers.go:29-78 | After any history, one restart and a fault-free loop project and commit the whole log if and only if it holds no malformed telemetry message; such a message blocks everything behind it |
| CivilCalendar.CivilIsGregorian | workers/scada-standins/src/main.rs:135-148 | For every day count the closed form is the Gregorian calendar stepped day by day from 1970-01-01 |
| CivilCalendar.DaysOfCivil | workers/scada-standins/src/main.rs:136-148 | Month and day of the closed form are always valid, and days-from-civil inverts it |
| CivilCalendar.CivilOfDays | workers/scada-standins/src/main.rs:136-148 | The closed form inverts days-from-civil on every valid date from the epoch on |
| CivilCalendar.YearOfEraIsRight | workers/scada-standins/src/main.rs:140-144 | The year formula picks the year of the 400-year era whose span holds the day |
| Rfc3339Text.RoundTrip | workers/scada-standins/src/main.rs:135-153 | Until the end of 9999, scanning the text gives back the fields and the second |
| Rfc3339Text.SecondsOfFields | workers/scada-standins/src/main.rs:137-151 | For every count of seconds the six fields determine it |
| Rfc3339Text.FieldRanges | workers/scada-standins/src/main.rs:143-151 | Every field obeys section 5.7 of RFC 3339, day limits included |
| Rfc3339Text.TwentyCharacters | workers/scada-standins/src/main.rs:152 | The text has the 20 characters of section 5.6 of RFC 3339, digits and separators in their places, if and only if the second is below 253402300800 |
| Rfc3339Text.TextOrderIsTimeOrder | workers/scada-standins/src/main.rs:152 | Below that bound, one text sorts before another if and only if its second is earlier |
| Rfc3339Text.SortsInTimeExactly | workers/scada-standins/src/main.rs:152 | The texts of the first n seconds sort in the order of time if and only if n is at most that bound |
| SimopsStore.InMemorySimopsStore.CreateRun | backend/slurm-gateway/internal/gateway/simops_store.go:200-237 | A key used before by the same identity returns its run, a known run id conflicts, and anything else is filed with its workers and its key |
| SimopsStore.InMemorySimopsStore.SaveLaunch | backend/slurm-gateway/internal/gateway/simops_store.go:239-271 | Exactly the launched workers are replaced, each with its launch state materialised |
| SimopsStore.InMemorySimopsStore.UpdateRunLifecycleWithPublicationIntent | backend/slurm-gateway/internal/gateway/simops_store.go:343-370 | The run moves and at most one intent per (run, type, lifecycle) is filed; an existing one is returned unchanged |
| SimopsStore.InMemorySimopsStore.UpdateWorkerObservedLifecycle | backend/slurm-gateway/internal/gateway/simops_store.go:390-422 | The worker, its evidence and the derived run state change, the run lifecycle does not, whatever order the worker map is visited in |
| SimopsStore.InMemorySimopsStore.ApplyStopTransition | backend/slurm-gateway/internal/gateway/simops_store.go:424-490 | The run file after the transition, for every visiting order of the worker map |
| SimopsStore.InMemorySimopsStore.UpdateArtifactStatus | backend/slurm-gateway/internal/gateway/simops_store.go:521-540 | Only the first artifact of an id changes; an unknown id is an error |
| SimopsStore.InMemorySimopsStore.MarkPublicationIntentPublished | backend/slurm-gateway/internal/gateway/simops_store.go:564-584 | The intent is published and its event saved unless an event of that id and worker already is |
| RunLaunch.ValidateLaunchedWorkers | backend/slurm-gateway/internal/gateway/simops_run_lifecycle.go:280-303 | Accepts if and only if the runtime launched every planned id exactly once, with its planned kind, and nothing else |
| RunLaunch.FailedWorkerOutcomes | backend/slurm-gateway/internal/gateway/simops_run_lifecycle.go:317-338 | Each planned worker ends stopped if and only if it was launched and compensation worked, and failed otherwise |
| RunLaunch.Fail | backend/slurm-gateway/internal/gateway/simops_run_lifecycle.go:196-246 | Failure disposition for every runtime and event-log behaviour: run failed, each planned worker stored as the outcome of its launch and compensation, first artifact of every id failed, one failure event in the ledger, intents untouched |
| RunLaunch.AllArtifactsFail | backend/slurm-gateway/internal/gateway/simops_run_lifecycle.go:219-228 | Every artifact ends failed if and only if each artifact that repeats an earlier id was failed before |
| RunLaunch.LaunchRun | backend/slurm-gateway/internal/gateway/simops_run_lifecycle.go:101-136 | All or nothing after admission: it succeeds if and only if the runtime starts, launches as planned and the artifact is valid for this run and names a known one; then the run is streaming with exactly the planned workers, one streaming intent and its artifact, which is kept with the run it names; otherwise everything is undone |
| RunLaunch.LaunchedWorkersAsPlanned | backend/slurm-gateway/internal/gateway/simops_store.go:251-254 | After saving a validated launch the stored (id, kind) pairs are exactly the planned ones, also when a kind was requested twice |
| RunLaunch.OutcomeAgreesExactly | backend/slurm-gateway/internal/gateway/simops_state.go:232-249 | Exactly when the lifecycle a launch outcome is stored with is the one its state projects to: if the state stands and agreed before, or the outcome is failed without a runtime resource |
| RunLaunch.FailedLaunchAgreesExactly | backend/slurm-gateway/internal/gateway/simops_run_lifecycle.go:196-215 | What a failed launch stores: a worker whose record had no state agrees with its state if and only if it was not both launched and compensated and names no runtime resource |
| RunStart.Start | backend/slurm-gateway/internal/gateway/simops_run_lifecycle.go:86-136 | A new run is launched or undone as above; a retried key finds its run, recovering it when the start was left incomplete; a foreign run id conflicts; no other run changes but by an artifact or a report that names it |
| RunStart.RecoverIncompleteStart | backend/slurm-gateway/internal/gateway/simops_run_lifecycle.go:142-186 | A stranded start ends failed: a stored worker is stopped if and only if the runtime reported a resource for it and compensation worked, every first artifact is failed; a report that names another run only changes that run's workers, evidence and derived state |
| RunStart.StartTwice | backend/slurm-gateway/internal/gateway/simops_run_lifecycle.go:86-99 | Two starts with one key create one run, and the second returns the first one untouched |
| SimopsState.WorkerFactsMoveForward | backend/slurm-gateway/internal/gateway/simops_state.go:155-230 | Over any sequence of observations, stop transitions and frame counts: terminal execution is never left, the condition only worsens, launched stays launched, degradations and evidence are only appended, and a terminal report stands beside a terminal execution |
| SimopsState.LaunchSettles | backend/slurm-gateway/internal/gateway/simops_state.go:232-249 | A saved launch without a report is a state those facts can move forward from |
| SimopsState.EvidenceAccounts | backend/slurm-gateway/internal/gateway/simops_store.go:401-409 | Over any such sequence the degradations added are exactly the evidence filed, failed cleanups excepted |
| WorkerReports.ReportsDecide | backend/slurm-gateway/internal/gateway/simops_state.go:169-198 | Any series of reports on a worker that is not terminal, in closed form: the last terminal report decides how it ended, later live reports only leave one degradation each, without a terminal report any sign of execution decides; failed iff a report failed it, at the execution stage iff that report was the first terminal one after a sign of execution |
| WorkerReports.StoreAppliesReports | backend/slurm-gateway/internal/gateway/simops_store.go:390-411 | The store applies a report to a worker exactly as that closed form assumes |
| WorkerReports.LaunchesAreDecided | backend/slurm-gateway/internal/gateway/simops_state.go:200-249 | A saved launch is launched iff it has a runtime id, rejected iff it has none and came back failed, and otherwise uncertain, the only case that degrades it |
| WorkerReports.LaunchesAreDecidedOnce | backend/slurm-gateway/internal/gateway/simops_state.go:200-203 | A decided launch is not decided again by a later save |
| SimopsState.DeriveRunState | backend/slurm-gateway/internal/gateway/simops_state.go:273-310 | The one-pass derivation with four flags computes the judgment "failed if any worker failed, else stopped if any stopped, else running if any executes, else launching if any is planned or launching, else completed" |
| SimopsState.DerivedIgnoresOrder | backend/slurm-gateway/internal/gateway/simops_state.go:273-310 | Phase, status and the degradations, counting repetitions, do not depend on the order in which the worker map is visited |
| RunStop.Stop | backend/slurm-gateway/internal/gateway/simops_stop_orchestrator.go:26-65 | Three transitions around stop and cleanup, each at its own time; the error returned says whether either runtime call failed |
| RunStop.StopIsExact | backend/slurm-gateway/internal/gateway/simops_stop_orchestrator.go:26-65 | The final transition records stopped and queues the stopped intent if and only if the store saw no stop or cleanup failure, no worker has failed and there is a worker; then every worker is terminal. Any failure it saw leaves the run stopping; otherwise a failed worker makes it failed and no worker at all completed |
| RunStop.CleanFinish | backend/slurm-gateway/internal/gateway/simops_store.go:459-478 | A clean final transition leaves the run failed, completed or stopped exactly by its workers, and stops all of them if none has failed |
| RunStop.StopFailsWorkersExactly | backend/slurm-gateway/internal/gateway/simops_stop_orchestrator.go:26-65 | A Stop fails a worker exactly if it had failed, the stop failed for certain with a text, or the cleanup failed for certain; it leaves one nominal exactly if nothing went wrong that the store could see; every worker notes how the cleanup went |
| RunStop.SilentErrorStops | backend/slurm-gateway/internal/gateway/simops_stop_orchestrator.go:67-72 | A stop error with an empty text, confirmed or not, is returned to the caller while the run's file ends as without the error |
| RunStop.StopFileAt | backend/slurm-gateway/internal/gateway/simops_store.go:437-466 | Each worker is transformed on its own, whatever the visiting order |
| PublicationOutbox.DispatchPublicationIntents | backend/slurm-gateway/internal/gateway/simops_run_lifecycle.go:381-403 | One dispatch over the listed intents, in any order and with any failures, acts on run file and broker as the pure dispatch does and counts the intents it could not publish |
| PublicationOutbox.RedpandaEventLog.Publish | backend/slurm-gateway/internal/gateway/simops_redpanda_event_log.go:15-43 | The broker is written first; the event is saved only if that worked |
| PublicationOutbox.StreamingPublishedOnce | backend/slurm-gateway/internal/gateway/simops_store.go:343-370 | Over any run of queueing, dispatching, recording, stopping and observing: the streaming event is in the ledger once if its intent is published and not at all otherwise, and a published one is in the broker stream |
| PublicationOutbox.PublishedIsAbsorbing | backend/slurm-gateway/internal/gateway/simops_run_lifecycle.go:387-390 | A published streaming intent is never reopened |
| PublicationOutbox.QuietDispatchPublishes | backend/slurm-gateway/internal/gateway/simops_run_lifecycle.go:381-403 | A dispatch that delivers an intent leaves it published |
| PublicationOutbox.DispatchOneTurns | backend/slurm-gateway/internal/gateway/simops_store.go:634-641 | Publishing and then marking published saves the event once, not twice |
| PublicationOutbox.RepeatedTransitionKeepsIntent | backend/slurm-gateway/internal/gateway/simops_store.go:365-369 | Repeating a transition neither adds nor resets an intent |
| StoppedOutbox.StopReopensItsIntent | backend/slurm-gateway/internal/gateway/simops_store.go:467-488 | A stop transition finds the run stopped, and makes the stopped intent pending afresh, if and only if it is clean and there are workers of which none has failed; otherwise it changes no intent |
| StoppedOutbox.StepKeepsStoppedOnce | backend/slurm-gateway/internal/gateway/simops_store.go:480-488 | A step keeps the stopped event single if and only if it is not such a transition taken while the stopped intent is already published |
| StoppedOutbox.StoppedPublishedPerReopening | backend/slurm-gateway/internal/gateway/simops_store.go:480-488 | Over any run of queueing, dispatching, recording, stopping and observing: the ledger holds the stopped event once for every such reopening, and once more if its intent is published now |
| StoppedOutbox.ControllerStopsOnce | backend/slurm-gateway/internal/gateway/simops_controller.go:224-243 | Behind the controller, which hands a stopped or complete run back unchanged, nothing is reopened: after any launch and any calls the ledger holds the stopped event once if its intent is published and else not |
| StoppedOutbox.RestoppingRepublishes | backend/slurm-gateway/internal/gateway/simops_store.go:480-488 | Reopening the published intent and dispatching puts the stopped event into the ledger once more |
| ArtifactDelivery.SimopsArtifactIntentProcessor.ProcessEvent | backend/slurm-gateway/internal/gateway/simops_iceberg_writer.go:448-581 | One event, under any behaviour of context, writer, reconciler and event log, moves buffers, ledger and writer calls as the pure step does, and answers with one batch, none, or an error |
| ArtifactDeliveryLaws.AnswersAreResolved | backend/slurm-gateway/internal/gateway/simops_iceberg_writer.go:487-581 | With a delivery store, an event that fills a batch is answered with one batch only if the batch's attempt is then resolved, and always if it is, unless the commit intent could not be published |
| ArtifactDelivery.SimopsArtifactIntentProcessor.constructor | backend/slurm-gateway/internal/gateway/simops_iceberg_writer.go:114-133 | The batch size is at least one, whatever is configured |
| ArtifactDelivery.InMemoryDeliveryStore.ResolveDeliveryAttempt | backend/slurm-gateway/internal/gateway/simops_store.go:154-169 | Resolved evidence carries the attempt's own coordinates |
| ArtifactDeliveryLaws.EventsConserved | backend/slurm-gateway/internal/gateway/simops_iceberg_writer.go:448-590 | With or without a delivery store and under every failure: the batches that left a run's buffer, then the buffer, are the run's accepted telemetry in order |
| ArtifactDeliveryLaws.BatchesConserveTelemetry | backend/slurm-gateway/internal/gateway/simops_iceberg_writer.go:466-485 | Without a delivery store: the batches handed to the writer, then the buffer, are the telemetry in order; every batch has batchSize events, sequences are 1, 2, 3, ..., and fewer than batchSize events wait |
| ArtifactDeliveryLaws.AttemptsOnlyMoveForward | backend/slurm-gateway/internal/gateway/simops_store.go:112-183 | Attempts go from pending to unknown to resolved or straight to resolved; a resolved one never changes; evidence is present if and only if resolved |
| ArtifactDeliveryLaws.AttemptsAreWrittenOnce | backend/slurm-gateway/internal/gateway/simops_iceberg_writer.go:498-526 | WriteArtifact happens for at most one batch per attempt, and never leaves its attempt pending |
| ArtifactDeliveryLaws.OnlyPendingIsWritten | backend/slurm-gateway/internal/gateway/simops_iceberg_writer.go:487-526 | An event causes a write if and only if it fills a batch whose attempt can be created and is held as pending, and Prepare succeeds |
| ArtifactDeliveryLaws.HandedOncePerDelivery | backend/slurm-gateway/internal/gateway/simops_iceberg_writer.go:448-590 | With or without a delivery store, for every batch size and under every failure: an event is handed to the writer at most as often as it was delivered and is not still buffered, so only a redelivery can repeat it |
| ArtifactDeliveryLaws.UnknownEventsAreWrittenAgain | backend/slurm-gateway/internal/gateway/simops_iceberg_writer.go:494-505 | That bound is reached: after a failed write and a redelivery, the next event makes a larger batch, a new attempt, and the unknown event, delivered twice, is handed over twice |
| ReactorWorkerSets.ReactorTelemetryManager.RegisterDynamicReactor | backend/slurm-gateway/internal/gateway/reactor_telemetry_worker_set.go:218-308 | A known key or reactor relaunches or returns its set; a new one is stored within the cap, which refuses if and only if the session is full; the answer names the set or the check or launch that failed |
| ReactorWorkerSets.ReactorTelemetryManager.CleanupWorkerSet | backend/slurm-gateway/internal/gateway/reactor_telemetry_worker_set.go:357-390 | Every way a cleanup can be cancelled, fail or work, and the set it leaves stored |
| ReactorWorkerSets.ReactorTelemetryManager.ReconcileExpired | backend/slurm-gateway/internal/gateway/reactor_telemetry_worker_set.go:415-442 | Every due set is cleaned up with its own outcome, all others stay, whatever the visiting order; exactly the due sets whose cleanup failed are reported |
| ReactorWorkerSets.ReactorTelemetryManager.ReconcileActive | backend/slurm-gateway/internal/gateway/reactor_telemetry_worker_set.go:464-490 | Sets in cleanup are retried, unexpired live ones relaunched, all others stay; exactly the retries and relaunches that failed are reported |
| ReactorWorkerSets.ReactorTelemetryManager.RemoveDynamicReactor | backend/slurm-gateway/internal/gateway/reactor_telemetry_worker_set.go:340-355 | A known set that is not removed yet is cleaned up under the caller's key; the error says which check or that the cleanup failed |
| ReactorWorkerSets.ReactorTelemetryManager.AuthorizeSourceCredential | backend/slurm-gateway/internal/gateway/reactor_telemetry_worker_set.go:392-413 | Accepts if and only if the verified claims name a stored, unrevoked, unexpired, starting or active set holding that source |
| ReactorWorkerSets.PhasesAreIrreversible | backend/slurm-gateway/internal/gateway/reactor_telemetry_worker_set.go:357-390 | Over any run: live, then cleanup or cleanup-failed, then removed, never back; no set is forgotten and a cleanup deadline never moves |
| ReactorWorkerSets.RevokedOutsideLive | backend/slurm-gateway/internal/gateway/reactor_telemetry_worker_set.go:365-373 | In every reachable store credentials are revoked exactly outside the live group, and no token is stored |
| ReactorWorkerSets.CleanupEndsAuthorization | backend/slurm-gateway/internal/gateway/reactor_telemetry_worker_set.go:392-413 | Once a cleanup is stored, no credential for the set is accepted after any further steps |
| ReactorWorkerSets.IssuedCredentialWorks | backend/slurm-gateway/internal/gateway/reactor_telemetry_worker_set.go:392-413 | The credential issued for a source works exactly while its set is starting or active and unexpired |
| ReactorWorkerSets.TouchExtendsLiveSets | backend/slurm-gateway/internal/gateway/reactor_telemetry_worker_set.go:197-216 | Touching a session, or all of them, makes the credentials of its live sets expire a full session time later; sets of other sessions and sets in cleanup or removed stay as they are |
| ReactorWorkerSets.CapHolds | backend/slurm-gateway/internal/gateway/reactor_telemetry_worker_set.go:245-257 | No session ever holds more unremoved sets than configured, nor more than four |
| ReactorWorkerSets.RegistrationIsUnique | backend/slurm-gateway/internal/gateway/reactor_telemetry_worker_set.go:227-244 | A session and a registration key never name two sets |
| ReactorWorkerSets.ExpiryIsIndependent | backend/slurm-gateway/internal/gateway/reactor_telemetry_worker_set.go:415-442 | A set ends removed if and only if it was, or was due and its own cleanup worked, whatever failed for the others |
| ArtifactForge.InMemoryArtifactForgeStore.Save | backend/slurm-gateway/internal/gateway/artifact_forge.go:196-207 | Saves unless it would remove or replace an applied outcome |
| ArtifactForge.LineageEligible | backend/slurm-gateway/internal/gateway/artifact_forge.go:531-554 | Accepts if and only if the lineage binds session, reactor, run, recipe and artifact |
| ArtifactForge.ArtifactForgeManager.EnforceCaps | backend/slurm-gateway/internal/gateway/artifact_forge.go:501-520 | Allows if and only if the reactor has no active request and the session fewer than four |
| ArtifactForge.ArtifactForgeManager.RequestForge | backend/slurm-gateway/internal/gateway/artifact_forge.go:272-337 | The ledger after a request: touched, and the record of its key opened, rejected or resumed; it answers with that record and whether it is new, or with the error of the check or read that failed |
| ArtifactForge.ArtifactForgeManager.Recover | backend/slurm-gateway/internal/gateway/artifact_forge.go:341-366 | The ledger after resuming one record by its stored identity, and that record or the error |
| ArtifactForgeLaws.AppliedIffEligible | backend/slurm-gateway/internal/gateway/artifact_forge.go:410-482 | An evaluation applies an outcome if and only if the run is complete and its artifact meets every eligibility condition at once |
| ArtifactForgeLaws.AppliedOnceIffOutcome | backend/slurm-gateway/internal/gateway/artifact_forge.go:464-482 | In every reachable ledger a record holds one outcome-applied event if it has an outcome and none otherwise, and its events are numbered without repetition |
| ArtifactForgeLaws.OutcomesArePermanent | backend/slurm-gateway/internal/gateway/artifact_forge.go:196-236 | In one step from any reachable ledger a record is either pruned because its retention is over, or its events only extend by prefix, its run stays, and an applied outcome stays exactly as it is |
| ArtifactForgeLaws.LedgersAreTidy | backend/slurm-gateway/internal/gateway/artifact_forge.go:608-616 | In every reachable ledger no evaluation is logged twice in a row, and retention ends eight days after the last activity |
| ArtifactForgeLaws.RecordsAreRetained | backend/slurm-gateway/internal/gateway/artifact_forge.go:222-236 | Pruning spares every record whose session was active within the last eight days |
| ArtifactForgeLaws.CapsHold | backend/slurm-gateway/internal/gateway/artifact_forge.go:501-520 | If failed and stopped verdicts stand, every reachable ledger has at most four active requests a session and one a reactor |
| ArtifactForgeLaws.RevivedExactly | backend/slurm-gateway/internal/gateway/artifact_forge.go:398-429 | A record that did not count counts again if and only if it is a failed one that the step resumes while its run is seen unfinished, or complete without an eligible artifact |
| ArtifactForgeLaws.RevivalIsCappedExactly | backend/slurm-gateway/internal/gateway/artifact_forge.go:410-429 | A revived record counts whether or not there is room: the caps hold afterwards if and only if a new request of its reactor would have been allowed |
| ArtifactForgeLaws.CapsHoldExactly | backend/slurm-gateway/internal/gateway/artifact_forge.go:501-520 | In any run, the caps hold all along if and only if every revival happens within them |
| ArtifactForgeLaws.CapsNeedStandingVerdicts | backend/slurm-gateway/internal/gateway/artifact_forge.go:410-429 | Four concrete calls after which one reactor has two active requests, because a verdict did not stand |
| FleetBoardEnding.TickEnding | src/domain/fleet-board/fleetBoard.ts:490-514 | A day, however its nine steps go: the day number rises by one, the days in debt rise by one if the day ends in debt and else restart, the game is removed once they exceed the grace and completed on the last day unless removed |
| FleetBoard.RunReactors | src/domain/fleet-board/fleetBoard.ts:542-577 | The loop over active reactors computes the reactor run |
| FleetBoard.TickSimulationJobs | src/domain/fleet-board/fleetBoard.ts:579-638 | The loop over the day's jobs computes jobs and insight |
| FleetBoardLedger.BudgetConserved | src/domain/fleet-board/fleetBoard.ts:391-441 | In every reachable state budget + cost x tokens is the starting budget |
| FleetBoardLedger.RailsWithinCap | src/domain/fleet-board/fleetBoard.ts:399-420 | No reactor ever exceeds its token cap |
| FleetBoardLedger.IdsAreNumbers | src/domain/fleet-board/fleetBoard.ts:422-488 | Token and job ids are exactly 1..n |
| FleetBoardLedger.JobsOnSchedule | src/domain/fleet-board/fleetBoard.ts:579-638 | An unfinished job has duration minus elapsed days to go, a finished one was finished max(1, duration) days after it was queued, it belongs to its token's reactor, and an unfinished job is the one its token's slot shows |
| FleetBoardLedger.SlotShowsItsJob | src/domain/fleet-board/fleetBoard.ts:319-340 | A slot is idle if and only if its token carries no unfinished job |
| FleetBoardLedger.QueueingAddsAJob | src/domain/fleet-board/fleetBoard.ts:443-488 | Queueing adds a job if and only if the reactor has a token without an unfinished job |
| FleetBoardLedger.InsightConserved | src/domain/fleet-board/fleetBoard.ts:579-721 | Per reactor, insight held plus spent is reward x finished jobs; it is never negative in any game if and only if the reward is not |
| FleetBoardLedger.JobLoopPays | src/domain/fleet-board/fleetBoard.ts:611-637 | The job loop pays the reward for exactly the jobs it completes |
| FleetBoardLedger.GamesBalance | src/domain/fleet-board/fleetBoard.ts:264-286 | Every reachable state of every game keeps money, rails, ids, schedule and insight in order |
| FleetBoardCash.CashConserved | src/domain/fleet-board/fleetBoard.ts:542-577 | In every reachable state cash + cost of the placed facilities + daily costs is the starting cash + what the delivered electricity, water and resilience earn |
| FleetBoardCash.OutagesLastExactly | src/domain/fleet-board/fleetBoard.ts:516-526 | In any game, whatever is played but the facility's own refueling: an outage of d days counts down by one each day and is over at the start of day max(1, d), exactly |
| FleetBoardCash.RefuelingNeedsThePlayer | src/domain/fleet-board/fleetBoard.ts:369-389 | A reactor that is refueling stays so through every action but its own refueling |
| FleetBoardEnding.GamesEnd | src/domain/fleet-board/fleetBoard.ts:490-514 | Every game is over after max(1, scenarioDays) day ticks, complete or removed but never both |
| FleetBoardEnding.RemovalIsSustainedDebt | src/domain/fleet-board/fleetBoard.ts:723-733 | In every history removed if and only if the trailing days in debt, a start in debt included, exceed the grace: this holds if and only if the grace is at least one day, or zero with a start out of debt |
| FleetBoardEnding.UncoveredStartIsNotRemoved | src/domain/fleet-board/fleetBoard.ts:245-262 | With a negative grace, or none and a start in debt, the debt exceeds the grace at the start and the game is not removed |
| FleetBoardEnding.EndIsFinal | src/domain/fleet-board/fleetBoard.ts:264-267 | No board action changes a finished game |
| FleetBoardEnding.FirstReactorsGenerate | src/domain/fleet-board/fleetBoard.ts:542-577 | With positive burn exactly the first min(n, max(0, fuel div burn)) active reactors generate and all others go refueling |
| FleetBoardEnding.GeneratorsClosedForm | src/domain/fleet-board/fleetBoard.ts:542-577 | How many reactors find fuel one after the other, in closed form for every burn |
| FleetBoardEnding.NearestIsFirstMinimum | src/domain/fleet-board/fleetBoard.ts:747-756 | The nearest facility is the first one, in board order, at the least distance |
| FleetBoardSession.EveryPlacementStands | src/domain/fleet-board/gameSession.ts:63-70 | Every placement on a live game adds a facility of its own: the minted id is always free |
| FleetBoardSession.PlacingIsFresh | src/domain/fleet-board/gameSession.ts:63-70 | The next minted id is not on the board, so placing appends exactly that facility and charges its cost |
| FleetBoardSession.SessionsPlayGames | src/domain/fleet-board/gameSession.ts:59-86 | A session only plays board moves, so the board's laws hold of every session |
| FleetBoardSession.FinishedGamesOnlyTakeModifiers | src/domain/fleet-board/gameSession.ts:59-61 | A finished game still takes modifiers and nothing else |
| PressureCurve.ValidateCurve | workers/simops-generator/src/manifest.rs:60-76 | Accepts if and only if the offsets strictly ascend, checking neighbours only |
| PressureCurve.ScanPressure | workers/simops-generator/src/manifest.rs:110-138 | The scan over windows with early return computes pressure_at |
| PressureCurve.PressureAtInterpolates | workers/simops-generator/src/manifest.rs:110-138 | On a validated curve pressure_at is the clamp to [0, 1] of the piecewise-linear interpolant, hits every clamped control point and is constant outside |
| PressureCurve.WindowIsLine | workers/simops-generator/src/manifest.rs:124-133 | The floor of 1.0 on the span and the clamp of the fraction never take effect on a validated window |
| PressureCurve.PressureAtMonotone | workers/simops-generator/src/manifest.rs:110-138 | Nondecreasing whenever the control pressures are |
| SeedDerivation.SeedIsHashOfKey | workers/simops-generator/src/sampler.rs:253-267 | The four chained hashing steps hash one byte string |
| SeedDerivation.SeedKeyInjective | workers/simops-generator/src/sampler.rs:253-259 | Two requests for randomness that differ in tag, bucket, worker or sequence hash different byte strings |
| ScenarioSampler.Sampler.EnsureBurstStates | workers/simops-generator/src/sampler.rs:148-185 | The burst cache grows to the bucket, keeps what it held, and every entry is the bucket-by-bucket definition |
| ScenarioSampler.Sampler.LatentBucket | workers/simops-generator/src/sampler.rs:127-146 | The cached latent bucket is the pure definition |
| ScenarioSampler.DrawAll | workers/simops-generator/src/sampler.rs:49-125 | In any history of draws each outcome is the memoryless function of its own request |
| ScenarioSampler.ProbabilitiesNeedNoClamp | workers/simops-generator/src/sampler.rs:204-211 | On a validated manifest every Bernoulli probability is already within [0, 1] |
| ScenarioSampler.SamplesNeverFail | workers/simops-generator/src/sampler.rs:213-234 | Sampling a validated manifest never reports an error |
| ScenarioSampler.CollectorFollowsSource | workers/simops-generator/src/sampler.rs:193-202 | Collector lag is at least source lag if and only if there is a profile or 24 x base pressure + 20 + sequence/10 is not negative |
| ScenarioSampler.BurstNeedsTransition | workers/simops-generator/src/sampler.rs:148-185 | The burst chain is never bad as long as no transition out of the good state is drawn |
| ScenarioSampler.FramesAreIndependent | workers/simops-generator/src/sampler.rs:187-190 | With seeds derived by hashing tag, bucket, worker and sequence: giving one draw of one frame another generator changes no sample of another bucket, worker or sequence number |
| ScenarioSampler.EvaluateBounds | workers/simops-generator/src/manifest.rs:290-293 | A parameter stays between its bounds |
| SnapshotSession.WorkbenchSnapshotSession.CompleteRefresh | src/domain/simulator-workbench/workbenchSnapshotSession.ts:192-202 | A completion settles if and only if the session runs and this refresh is the active one; the listeners it publishes to may call the session before the next refresh is scheduled |
| SnapshotSession.OnlyTheNewestSettles | src/domain/simulator-workbench/workbenchSnapshotSession.ts:175-202 | Under any interleaving only the newest refresh of a running session settles, and the state it captured is still the settled one |
| SnapshotSession.LiveModelsStayLive | src/domain/simulator-workbench/workbenchSnapshotSession.ts:250-320 | The shown model is the settled one; once live it stays live and its generation never decreases; a model is never lost; a settled session never adopts a fixture |
| SnapshotSession.FixtureOnlyAtFirstRead | src/domain/simulator-workbench/workbenchSnapshotSession.ts:192-200 | A fixture is adopted only by the first settled read, and only if the options allow it |
| SnapshotSession.RunningSessionsRefresh | src/domain/simulator-workbench/workbenchSnapshotSession.ts:162-202 | Whatever listeners call, a running session always has an active read or a scheduled refresh, and a stopped one no active read |
| SnapshotSession.DrivenOnceExactly | src/domain/simulator-workbench/workbenchSnapshotSession.ts:162-202 | A running session never has both and a stopped one neither, all along, if and only if no listener reacts to a settled read by refreshing or disposing |
| SnapshotSession.SelectionIsReconciled | src/domain/simulator-workbench/workbenchSnapshotSession.ts:230-248 | Whenever there is a model, the selection names the projected unit and value and a commercial basis of that unit or none |
| SnapshotSession.DisposeUndoesTheRefresh | src/domain/simulator-workbench/workbenchSnapshotSession.ts:219-226 | Disposing during a read brings back exactly what was settled |

## Left out

- HTTP handlers, TLS, Kafka and WebTransport clients, Docker and Kubernetes adapters, Iceberg and Arrow, file output and the React and Phaser user interface: I/O around the modelled cores.
- The Postgres stores except the transaction of SaveProjection, and the SQL aggregates that differ from the in-memory store.
- SHA-256, HMAC, base64, JSON and the random distributions themselves: their results are parameters or injective stand-ins.
- Concurrent dispatchers and callers: calls are serial, as the managers' mutexes and the single consumer loop make them.
- Bounded waiting (`recoveryContext`, `WorkerCleanupTTL`): a context that ends shows up as the failure it causes.
- Spool commands, worker labels, endpoints and launch modes, run source and script fields: stored and handed back, with no effect on the modelled guarantees.
- The Fleet Board event log, score, labels and the hashing of the seed text: presentational. Facility ids that JavaScript would order as integers are outside the model of object key order.
- Messages of Artifact Forge decisions and the wording of most errors: the decision itself is modelled.
- RunLaunch.LaunchRun: one clock reading stands for the several of one call.
- RunStart.RecoverIncompleteStart: one clock reading stands for the several of one call.
- PublicationOutbox.DispatchPublicationIntents: intents are taken to lie with the run of their own event, as both callers file them.
- PublicationOutbox.StreamingPublishedOnce: events recorded outside the outbox are taken not to use the type `run.lifecycle`, which no other writer does.
- ArtifactDelivery.SimopsArtifactIntentProcessor.ProcessEvent: the 64-bit batch sequence is unbounded here; buffered batches do not survive a crash and no such claim is made.
- SnapshotSession.RunningSessionsRefresh: the projection builder and the listeners are taken to return; if one throws while a read settles, no refresh is scheduled. Subscribing and unsubscribing are not modelled.
- FleetBoard.InitialState: facility ids are minted or free text, so that `Text("reactor-1")` and `Minted(Reactor, 1)`, one string in the source, are two ids here; no session places a facility under free text.
- CivilCalendar.CivilIsGregorian: day counts are unbounded naturals, which covers every unsigned 64-bit second count.
- Events beyond one topic and partition of the telemetry log: partitions are independent of each other.
