# Desktop and cloud state machines, verified

A Dafny model of the asynchronous protocols of the Zuse desktop and iOS applications, with proofs about all their
runs. Each synchronous stretch between two awaits of the source is one atomic step; promise chains are queues; what
the operating system, the network, a library or a clock does is chosen freely by the environment, failures included.
Timestamps are integers in milliseconds, and the arithmetic of averages is over exact reals.

`dafny verify dfyconfig.toml` checks the whole project.

For each component there is a state, a step function for each thing that can happen, a run over any sequence of
them, an invariant, and theorems about every reachable state. Where the source updates an object in place there is
also a class with its fields and loops, whose methods are proved equal to the steps.

| module | component |
|---|---|
| `EngineMaintenance` | the gate that keeps the engine down during maintenance, with competing scopes and callers |
| `UpdateChannel` | the serial coordinator of feed operations and channel switches |
| `Updater` | update installation on top of those two: preparation, native staging, quitting, failures |
| `UpdateDownload` | the download attempts and their stall timer |
| `PerformanceHistory`, `HistoryRotation`, `HistoryRestart` | the capped history with rollups by minute, its rotating files, and both across restarts |
| `BatchedLogWriter` | the bounded log queue with a single drain |
| `ComputerAwake` | the helper, retry timer, blocker and client counting that keep the computer awake |
| `EngineHost` | the attach, request, cancel and reattach protocol |
| `CloudIntent` | durable idempotency of cloud actions across crashes and lost replies |
| `PowerMonitor`, `PowerSummary` | sampling timers, recordings and retention; averages, timelines and grouping |
| `ProfileStore`, `LocalePreference`, `RecordingStore` | serial commit queues, and pruning |
| `Options`, `Sequences` | shared vocabulary |

## What the proofs found

Promises that do not hold on all inputs are stated with the exact condition under which they do:

- `prepare` and `resume` of one maintenance scope are not re-entrant: the gate's invariant breaks exactly at a resume
  while the scope's own `prepare` is in flight (`InvariantBreaksExactly`, `UndisciplinedResumeMisleads`). The updater's
  flags are what keeps its scope from being used that way.
- A quit prevented for the sake of a ready update is lost exactly when the installation it begins or meets was prepared
  for somebody who does not quit, or ends after its preparation answered "stopped": a hand-over that fails, a staging
  timeout, no update to stage (`DeferredQuitIsLostExactly`, `QuitLostToTimeout`). The handler drops a prevented quit at once in exactly two cases
  (`DeferredQuitGoesOnExactly`), the second of which needs a feed operation that reports a download twice
  (`QuitDroppedAtOnce`).
- The exit watchdog survives a staging timeout exactly if before-quit-for-update came while staging was pending
  (`WatchdogOrphanedExactly`). The model lets the native updater emit that event at any time; if it does so only for
  calls of its own quit-and-install, which come after staging, the watchdog is never orphaned
  (`WatchdogNeedsInstallation`).
- The rollups in memory exceed their limit by one exactly when a minute ends with the limit of unexpired ones reached
  (`RollupsExceedExactly`). With the retention of a week that the application uses this takes a minute that a restart
  repeated (`RepeatedMinuteExceeds`) or a clock behind the samples; without either it never happens
  (`RollupsStayWithinLimit`). A flush in mid-run loses a minute from memory exactly after 960 more samples
  (`FlushLosesMinuteExactly`); the application's only flush is at quit, after the monitor has stopped.
- Stored rollups that arrive after the first minute has ended go behind newer ones: the rollups are then out of order
  unless they fill the memory (`RestoredInOrderExactly`), and in both cases no longer agree with the record
  (`LateRestoreAgreesExactly`). The analysis is not affected while the rollups fit, because it sorts
  (`LateRestartAgreement`); where a full memory is read back, the session's own rollups are cut off
  (`LateRestoreForgetsExactly`).
- A single history file never rotates (`SingleFileGrows`).
- A host result that settles before `connect` returns is dropped (`EarlyResultIsLost`, `AnsweredExactlyWhen`).
- Signing in again under the same identity during a cloud action leaves its workspace busy for good
  (`StrandedExactlyByRenewal`). A refused action can still run, and run twice under two ids, exactly if a request for
  it had left before (`RefusedRunsExactly`).
- The power monitor is left with a wrong interval, or none, by exactly two kinds of steps
  (`IntervalStaysRightExactly`); a recording whose first sample is already past its end leaves a timer behind that ends
  the next recording (`TimeoutsStayOwnedExactly`, `LeftoverTimeoutEndsTheNext`).
- A timeline of samples in order is recovered from its transitions exactly if samples of equal time agree
  (`RecoveredExactlyWhenAgreeing`).
- A profile change that fails after its rename is undone in memory but not on disk (`FileMatchesExactlyWhenSynced`,
  `RestartLoadsExactly`).

## Model

| member | source | states |
|---|---|---|
| `EngineMaintenance.OthersCannotTouch` | apps/desktop/src/engine-maintenance.ts:14-39 | Only a scope's own calls give it ownership, take it away or undo its "stopped" answer; "stopped" always comes with ownership. |
| `EngineMaintenance.RunKeepsGateInv` | apps/desktop/src/engine-maintenance.ts:10-41 | For any number of scopes and callers interleaved in any way, an owner past its startup wait has no startup in flight. |
| `EngineMaintenance.StoppedMeansHeld` | apps/desktop/src/engine-maintenance.ts:21-33 | A "stopped" answer means the scope owns the gate and no engine startup is in flight. |
| `EngineMaintenance.GateStaysClosed` | apps/desktop/src/main.ts:1760-1842 | From "stopped" to the owner's own resume, no other scope or caller moves ownership, starts an engine, leaves one starting or is handed an endpoint. |
| `EngineMaintenance.InvariantBreaksExactly` | apps/desktop/src/engine-maintenance.ts:16-33 | A step keeps the invariant if and only if it is no resume of a scope whose own prepare is in flight. |
| `EngineMaintenance.UndisciplinedResumeMisleads` | apps/desktop/src/engine-maintenance.ts:16-33 | After every such resume, unless the awaited startup has failed, the prepare in flight can still answer "stopped" with the gate open. |
| `EngineMaintenance.ReentrantPrepareOpensTheGate` | apps/desktop/src/engine-maintenance.ts:16-23 | A witness from the start: calling prepare on one scope twice is not safe: "busy" plus resume of the second call opens the gate under the first. |
| `EngineMaintenance.EngineGate.PrepareScope` | apps/desktop/src/engine-maintenance.ts:21-23 | Admits exactly when there is no owner, and takes ownership in the same step. |
| `EngineMaintenance.EngineGate.ContinuePrepare` | apps/desktop/src/engine-maintenance.ts:24-37 | Each await of an admitted prepare moves the gate as the specification says, including every failure. |
| `EngineMaintenance.EngineGate.ResumeScope` | apps/desktop/src/engine-maintenance.ts:16-18 | Clears ownership for the owner only. |
| `EngineMaintenance.EngineGate.DesktopEngine` | apps/desktop/src/main.ts:1760-1834 | A caller is refused while the gate is owned, joins a startup in flight, and starts one only otherwise. |
| `EngineMaintenance.EngineGate.StartupSettles` | apps/desktop/src/main.ts:1768-1834 | The end of a startup clears it for everybody who waited. |
| `UpdateChannel.RunIsSerial` | apps/desktop/src/update-channel.ts:54-86 | Settled jobs followed by unsettled ones are the submitted jobs in order; switches counts unsettled switches; the channel is that of the last switch persisted. |
| `UpdateChannel.OperationsRunBetweenSwitches` | apps/desktop/src/update-channel.ts:54-64 | An operation that runs starts with no switch unsettled, and keeps its channel until it settles. |
| `UpdateChannel.DrainSettlesEverything` | apps/desktop/src/update-channel.ts:82-86 | Failures never break the chain: as many turns as unsettled jobs settle them all in order and end every switch. |
| `UpdateChannel.UpdateChannelCoordinator.SetChannelTo` | apps/desktop/src/update-channel.ts:66-72 | Rejects a value that is no channel without effect; else counts the switch, cancels the running operation and queues. |
| `UpdateChannel.UpdateChannelCoordinator.BeginNext` | apps/desktop/src/update-channel.ts:55-59 | Takes the next job; an operation that meets a pending switch is skipped. |
| `UpdateChannel.UpdateChannelCoordinator.SettleRunning` | apps/desktop/src/update-channel.ts:58-79 | Only a successful switch changes the channel; every switch, also a failed one, ends its count. |
| `Updater.HandOffsAreSafe` | apps/desktop/src/updater.ts:153-320 | In every run every native or library quit-and-install is called while the updater's scope holds the gate, with no engine startup in flight, no switch pending, and an update of the channel in force. |
| `Updater.OldChannelIsNeverInstallable` | apps/desktop/src/updater.ts:378-437 | A pending switch leaves status idle, nothing locked and nothing installable; what is ready or staged belongs to the current channel. |
| `Updater.StepFollowsPhases` | apps/desktop/src/updater.ts:153-320 | Every step of the flags is a step of a six-phase protocol and calls quit-and-install at most once, only out of preparation or staging. |
| `Updater.IdleStageNeverQuits` | apps/desktop/src/updater.ts:229-286 | A stage that timed out or was parked quits nothing until somebody asks to install or quit. |
| `Updater.NoEngineWhileInstalling` | apps/desktop/src/updater.ts:196-224 | While an installation lasts no engine starts and no endpoint is handed out. |
| `Updater.EngineStaysDown` | apps/desktop/src/main.ts:1760-1842 | One step of that: an installation that lasts keeps the gate closed. |
| `Updater.RefusedInstallLetsTheQuitThrough` | apps/desktop/src/updater.ts:168-195 | A quit whose install is refused or fails to prepare releases the gate and issues a quit that is not deferred again. |
| `Updater.DeferredQuitGoesOnExactly` | apps/desktop/src/updater.ts:127-145 | What the handler does at once with a quit it prevents: it begins a preparation, joins one that a quit asked for, or issues the quit again, except exactly when a preparation somebody else asked for is under way, or the stage has timed out while an update is shown as ready. |
| `Updater.EndIssuesQuitExactly` | apps/desktop/src/updater.ts:168-320 | Any step that ends an installation issues a quit if and only if it ends in its preparation, that preparation was asked for by a quit, and it was refused or failed; after a "stopped" answer nothing that fails issues one. |
| `Updater.DeferredQuitIsLostExactly` | apps/desktop/src/updater.ts:127-320 | From a prevented quit that begins a preparation or meets one, through any run of that installation to its end: the quit is issued again if and only if the preparation is one that a quit asked for, and was refused or failed; otherwise it is lost. |
| `Updater.QuitLostToTimeout` | apps/desktop/src/updater.ts:229-250 | A witness from launch: the preparation answers "stopped", staging times out, and the quit is lost. |
| `Updater.QuitDroppedAtOnce` | apps/desktop/src/updater.ts:127-166 | A witness from launch for a timed-out stage with an update shown as ready; it needs a second downloaded event inside one feed operation. |
| `Updater.RefusedInstallDropsOtherQuits` | apps/desktop/src/updater.ts:168-195 | A quit prevented while somebody else's preparation is under way is lost if the engine is busy or the preparation fails. |
| `Updater.WatchdogOrphanedExactly` | apps/desktop/src/updater.ts:229-266 | The exit watchdog is left armed without an installation by exactly one step: a staging timeout after before-quit-for-update came during staging. |
| `Updater.WatchdogNeedsInstallation` | apps/desktop/src/updater.ts:256-266 | In runs where that event never comes while staging is pending, the watchdog is armed only while an installation lasts. |
| `Updater.WatchdogOutlivesTimeout` | apps/desktop/src/updater.ts:229-266 | A witness from launch for the other case. |
| `Updater.UpdaterModule.Install` | apps/desktop/src/updater.ts:153-167 | The entry guard of an installation and the start of preparation. |
| `Updater.UpdaterModule.Continue` | apps/desktop/src/updater.ts:167-224 | What follows the answer of prepare: recorded failure, busy, error, or the hand-over. |
| `Updater.UpdaterModule.HandToInstaller` | apps/desktop/src/updater.ts:196-223 | Staging on macOS, parked stage or direct call, with the listeners and timers they register. |
| `Updater.UpdaterModule.Fail` | apps/desktop/src/updater.ts:292-320 | Recorded during preparation, otherwise full clean-up and release. |
| `Updater.UpdaterModule.NativeStagingTimedOut` | apps/desktop/src/updater.ts:229-245 | The stage becomes timed out, the gate is released, the listener for a late download stays. |
| `Updater.UpdaterModule.QuitAfterNativeStaging` | apps/desktop/src/updater.ts:268-286 | A staged download quits, or only parks when it had timed out. |
| `Updater.UpdaterModule.NativeStagingUnavailable` | apps/desktop/src/updater.ts:247-249 | A staging attempt without an update fails the installation. |
| `Updater.UpdaterModule.ArmInstallExitWatchdog` | apps/desktop/src/updater.ts:256-266 | Armed at most once and only while installing. |
| `Updater.UpdaterModule.OnError` | apps/desktop/src/updater.ts:530-544 | An error fails a locked installation, is ignored during a switch or a check, else is shown. |
| `Updater.UpdaterModule.InstallPendingUpdateOnQuit` | apps/desktop/src/updater.ts:127-145 | Whether a quit is prevented, and the one-shot exception. |
| `Updater.UpdaterModule.OnBeforeQuit` | apps/desktop/src/main.ts:3706-3757 | The quit handler: pending install first, then the cleanup. |
| `Updater.UpdaterModule.RunUpdateCheck` | apps/desktop/src/updater.ts:378-390 | A locked feed starts no check but shows a parked update. |
| `Updater.UpdaterModule.OnSetChannel` | apps/desktop/src/updater.ts:639-645 | A channel request is refused while the feed is locked. |
| `UpdateDownload.DownloadEnds` | apps/desktop/src/updater.ts:652-672 | At most two attempts, the second only after a stall; the stall timer never outlives its attempt; failure exactly when the last attempt broke or both stalled. |
| `UpdateDownload.SwitchEndsDownload` | apps/desktop/src/updater.ts:654-664 | Once the channel is being switched no attempt starts and none reports a failure. |
| `UpdateDownload.UpdateDownloader.OnAttemptSettled` | apps/desktop/src/updater.ts:655-671 | The rest of the loop body, `catch`, `finally` and loop head as one step. |
| `UpdateDownload.UpdateDownloader.OnSwitchRequested` | apps/desktop/src/updater.ts:54-59 | A switch clears the stall timer and cancels the attempt. |
| `UpdateDownload.UpdateDownloader.OnStallTimer` | apps/desktop/src/updater.ts:335-344 | The stall timer cancels the attempt only while downloading or available. |
| `PerformanceHistory.ReduceIsLatest` | apps/desktop/src/performance-analysis.ts:174-184 | On samples in order, repeated and simultaneous ones included, the insertion-ordered map by minute is exactly the last sample of every minute, in order. |
| `PerformanceHistory.RunKeepsInv` | apps/desktop/src/performance-history-store.ts:83-104 | Any run whose times do not go back, with samples recorded twice and any cutoffs, keeps window, rollups and pending sample in agreement with the full record. |
| `PerformanceHistory.HistoryInOrder` | apps/desktop/src/performance-history-store.ts:106-126 | The history is in order and rollups never overlap the high-resolution part. |
| `PerformanceHistory.HistoryReduces` | apps/desktop/src/performance-history-store.ts:106-126 | The reduction of a history is the reduction of the full record, filtered to `since` and to what memory still has. |
| `PerformanceHistory.RollupAgreement` | apps/desktop/src/performance-analysis.ts:174-184 | In every run, also one that continues restored rollups: what the analysis works on is that reduction, or the unreduced history if it spans less than five minutes. |
| `PerformanceHistory.NothingLost` | apps/desktop/src/performance-history-store.ts:222-235 | Until a sample expires or the minutes outgrow the rollups, no minute is lost: the history reduces to everything recorded since. |
| `PerformanceHistory.RollupsStayWithinLimit` | apps/desktop/src/performance-history-store.ts:83-97 | With the retention of a week, a clock not behind the samples, and minutes that do not repeat, the rollups never exceed their limit, over any run. |
| `PerformanceHistory.RepeatedMinuteExceeds` | apps/desktop/src/performance-history-store.ts:83-97 | A witness: a week read back, whose last minute a restart repeats, exceeds the limit under the same retention and clock. |
| `PerformanceHistory.RollupsExceedExactly` | apps/desktop/src/performance-history-store.ts:83-97 | One snapshot, any retention: the rollups exceed their limit, by one, exactly when a minute ends with the limit of unexpired rollups already held. |
| `PerformanceHistory.PersistedIsReduction` | apps/desktop/src/performance-history-store.ts:83-104 | What is handed to persistence by a run and a final flush is exactly the reduction of everything recorded. |
| `PerformanceHistory.FlushLosesMinuteExactly` | apps/desktop/src/performance-history-store.ts:128-134 | After a flush in mid-run, with no later sample in its minute, memory loses the minute if and only if at least 960 samples follow. |
| `PerformanceHistory.DropOlderIsFilter` | apps/desktop/src/performance-history-store.ts:227-232 | On samples in order, shifting expired ones from the front is filtering. |
| `PerformanceHistory.PerformanceHistoryStore.TrimMemory` | apps/desktop/src/performance-history-store.ts:222-242 | The three trims in place. |
| `PerformanceHistory.PerformanceHistoryStore.RecordSnapshot` | apps/desktop/src/performance-history-store.ts:83-98 | Push, trim, and roll the pending sample over at a minute boundary. |
| `PerformanceHistory.PerformanceHistoryStore.GetHistory` | apps/desktop/src/performance-history-store.ts:106-126 | Everything kept in high resolution since then, nothing that is not kept, in order, and minute by minute what was recorded last and is still kept. |
| `PerformanceHistory.PerformanceHistoryStore.FlushPending` | apps/desktop/src/performance-history-store.ts:128-134 | The pending sample is queued and forgotten. |
| `PerformanceHistory.PerformanceHistoryStore.Initialize` | apps/desktop/src/performance-history-store.ts:70-80 | Unexpired stored entries are added to the rollups and lag samples, whatever was recorded meanwhile. |
| `HistoryRestart.SessionsPersist` | apps/desktop/src/performance-history-store.ts:83-134 | The samples that any number of sessions persist, whatever each read back and when, reduce to the reduction of everything they recorded. |
| `HistoryRestart.RestoreKeepsInv` | apps/desktop/src/performance-history-store.ts:70-80 | Restoring into a store still in its first minute keeps it in agreement with all sessions. |
| `HistoryRestart.RestoredInOrderExactly` | apps/desktop/src/performance-history-store.ts:70-80 | After restoring older samples into any store whose rollups are in order, the rollups are in order if and only if it had none, nothing unexpired was read, or as much was read as memory holds. |
| `HistoryRestart.LateRestoreMisorders` | apps/desktop/src/performance-history-store.ts:70-80 | A witness from the start: two snapshots of different minutes before the files are read. |
| `HistoryRestart.LateRestoreAgreesExactly` | apps/desktop/src/performance-history-store.ts:70-80 | After any run from the start, restoring older samples keeps the store in agreement with everything recorded if and only if nothing unexpired was read or all samples are of one minute: not if so much was read that the rollups are in order. |
| `HistoryRestart.LateRestoreForgetsExactly` | apps/desktop/src/performance-history-store.ts:70-80 | Where as many unexpired samples are read late as memory holds, a minute the session had already rolled over is kept exactly while the high-resolution window has it, although it was persisted. |
| `HistoryRestart.RestartAgreement` | apps/desktop/src/performance-history-store.ts:58-126 | Any number of sessions, each restored at any time, through rotating files, a restart and another run: the history shown reduces to the reduction of everything ever recorded, filtered to what memory holds. |
| `HistoryRestart.LateHistoryAgrees` | apps/desktop/src/performance-analysis.ts:163-184 | However late the files are read, while the rollups fit and nothing asked for has expired: the history sorted by time is the one shown had the files been read first. |
| `HistoryRestart.LateRestartAgreement` | apps/desktop/src/performance-analysis.ts:163-184 | So what the analysis works on is still the reduction of everything ever recorded by all sessions, filtered to what memory holds, or a history of less than five minutes as it is. |
| `HistoryRotation.RunReadsSubsequence` | apps/desktop/src/performance-history-store.ts:164-193 | Whatever unlinks, renames and writes fail, what is read back is a subsequence, in order. |
| `HistoryRotation.RunReadsSuffix` | apps/desktop/src/performance-history-store.ts:58-69 | With at least two files and no failures, what is read back is a suffix of everything appended. |
| `HistoryRotation.FilesStayBounded` | apps/desktop/src/performance-history-store.ts:164-187 | No file exceeds the limit or its single line, and no file is closed while the next line would fit. |
| `HistoryRotation.SingleFileGrows` | apps/desktop/src/performance-history-store.ts:179-187 | A single file never rotates. |
| `HistoryRotation.RotatedShifts` | apps/desktop/src/performance-history-store.ts:179-187 | A successful rotation drops the oldest file and empties the current one. |
| `HistoryRotation.RotatingFiles.Rotate` | apps/desktop/src/performance-history-store.ts:179-187 | The shifting loop over an array of files refines the specification. |
| `HistoryRotation.RotatingFiles.AppendLine` | apps/desktop/src/performance-history-store.ts:164-177 | Rotates only when the current file is not empty and the line would not fit. |
| `HistoryRotation.RotatingFiles.ReadAll` | apps/desktop/src/performance-history-store.ts:58-69 | Reads oldest first. |
| `BatchedLogWriter.RunKeepsInv` | apps/desktop/src/batched-log-writer.ts:47-104 | Accounting, order, both limits, one outstanding write, and no work without a drain, in every run. |
| `BatchedLogWriter.Conservation` | apps/desktop/src/batched-log-writer.ts:74-104 | Appended lines and bytes are those handed over, pending, dropped unreported, and reported, at all times. |
| `BatchedLogWriter.MakeRoomDropsPrefix` | apps/desktop/src/batched-log-writer.ts:90-100 | Making room drops the shortest prefix after which the line fits, and accounts for it. |
| `BatchedLogWriter.FlushCovers` | apps/desktop/src/batched-log-writer.ts:106-120 | When a flush resolves, every line appended before it is in a settled batch or a settled drop record. |
| `BatchedLogWriter.DrainFinishes` | apps/desktop/src/batched-log-writer.ts:47-72 | A drain ends after boundedly many settled writes. |
| `BatchedLogWriter.FilesAreIndependent` | apps/desktop/src/batched-log-writer.ts:45-79 | The queue of each path runs as if it were alone. |
| `BatchedLogWriter.FileQueue.NextTurn` | apps/desktop/src/batched-log-writer.ts:50-62 | A batch, its byte count and the drop record leave the queue together. |
| `BatchedLogWriter.FileQueue.DropWhileFull` | apps/desktop/src/batched-log-writer.ts:90-100 | The dropping loop. |
| `BatchedLogWriter.FileQueue.AppendLine` | apps/desktop/src/batched-log-writer.ts:74-104 | Over-long lines are counted as dropped, others queued, and a drain is started. |
| `BatchedLogWriter.FileQueue.OnWriteSettled` | apps/desktop/src/batched-log-writer.ts:62-63 | The loop goes on after the write, whether it failed or not. |
| `BatchedLogWriter.FileQueue.OnDrainFinally` | apps/desktop/src/batched-log-writer.ts:64-71 | The drain restarts if lines came in, else the queue is removed. |
| `ComputerAwake.AwakeRuns` | apps/desktop/src/computer-awake-controller.ts:118-320 | On macOS and not disposed exactly one of helper and retry timer exists if wanted, else neither; every helper is current, killed or exited; one blocker at most; delays grow from 1 s to 30 s. |
| `ComputerAwake.BlockerStraysExactly` | apps/desktop/src/computer-awake-controller.ts:162-230 | A step leaves a blocker held that nobody wants exactly when the demand is over after it, one was held, and stopping it fails. |
| `ComputerAwake.BlockerOnlyWhileWanted` | apps/desktop/src/computer-awake-controller.ts:162-230 | Over runs in which stopping never fails, a blocker is held only while the computer must be kept awake. |
| `ComputerAwake.DisposeReleases` | apps/desktop/src/computer-awake-controller.ts:144-152 | Disposing leaves no helper running and no timer, and no blocker exactly if none was held or stopping it works. |
| `ComputerAwake.DisposedStartsNothing` | apps/desktop/src/computer-awake-controller.ts:144-176 | After that nothing is started again, in any run. |
| `ComputerAwake.EngineRuns` | apps/desktop/src/engine-main.ts:61-76 | From the start of the engine, repeated releases never miscount, so the above holds with the number of unreleased connections. |
| `ComputerAwake.ComputerAwakeController.StartCaffeinate` | apps/desktop/src/computer-awake-controller.ts:232-278 | No second helper and none while a retry is due; a failed spawn arms the retry. |
| `ComputerAwake.ComputerAwakeController.StopCaffeinate` | apps/desktop/src/computer-awake-controller.ts:308-320 | The helper is forgotten and killed. |
| `ComputerAwake.ComputerAwakeController.ScheduleNextRetry` | apps/desktop/src/computer-awake-controller.ts:280-293 | One timer, with doubling delay up to the limit. |
| `ComputerAwake.ComputerAwakeController.StartElectronBlocker` | apps/desktop/src/computer-awake-controller.ts:197-217 | Asks whether the blocker is held before and after starting one. |
| `ComputerAwake.ComputerAwakeController.StopElectronBlocker` | apps/desktop/src/computer-awake-controller.ts:219-230 | Keeps the id while the blocker is still held. |
| `ComputerAwake.ComputerAwakeController.RefreshAll` | apps/desktop/src/computer-awake-controller.ts:162-176 | Both holders follow the demand. |
| `ComputerAwake.ComputerAwakeController.OnHelperFailed` | apps/desktop/src/computer-awake-controller.ts:250-256 | Only the current helper's end counts, once. |
| `ComputerAwake.ComputerAwakeController.DisposeAll` | apps/desktop/src/computer-awake-controller.ts:144-152 | Ends helper and timer, and asks for the blocker to be stopped, once. |
| `EngineHost.HostRunsLawfully` | apps/desktop/src/engine-host-connection.ts:26-115 | Each result answers a request accepted on the same channel, once, never after its cancel or its attachment's abort; nothing connects after close. |
| `EngineHost.AtMost32Live` | apps/desktop/src/engine-host-connection.ts:56-62 | At most 32 requests of an attachment are unfinished. |
| `EngineHost.IntrusionEndsAttachment` | apps/desktop/src/engine-host-connection.ts:56-62 | A request aborts the attachment exactly if its id is unfinished or 32 requests are live; otherwise it is accepted. |
| `EngineHost.AbortIsFinal` | apps/desktop/src/engine-host-connection.ts:41-42 | After an abort no request of the attachment is accepted and no result sent, in any continuation. |
| `EngineHost.AnsweredExactlyWhen` | apps/desktop/src/engine-host-connection.ts:69-83 | A settled request is answered if and only if it was not cancelled, its attachment not aborted, and connect had returned. |
| `EngineHost.EarlyResultIsLost` | apps/desktop/src/engine-host-connection.ts:77-83 | A result that settles before connect returns is dropped: a concrete run. |
| `EngineHost.EngineHostConnection.BeginAttachment` | apps/desktop/src/engine-host-connection.ts:29-36 | A new attachment, unless closed. |
| `EngineHost.EngineHostConnection.EndpointReturns` | apps/desktop/src/engine-host-connection.ts:36-38 | Connects only if the attachment still lives. |
| `EngineHost.EngineHostConnection.ConnectReturns` | apps/desktop/src/engine-host-connection.ts:87-90 | The channel becomes current only if the attachment still lives. |
| `EngineHost.EngineHostConnection.OnHostRequest` | apps/desktop/src/engine-host-connection.ts:41-64 | Duplicate or excess requests abort, others are registered. |
| `EngineHost.EngineHostConnection.OnHostCancel` | apps/desktop/src/engine-host-connection.ts:47-50 | Cancels the live request of that id. |
| `EngineHost.EngineHostConnection.StartTask` | apps/desktop/src/engine-host-connection.ts:64-68 | A task that starts too late only unregisters. |
| `EngineHost.EngineHostConnection.SettleTask` | apps/desktop/src/engine-host-connection.ts:72-83 | Unregisters and sends if it still may. |
| `EngineHost.EngineHostConnection.FinishAttachment` | apps/desktop/src/engine-host-connection.ts:92-99 | Aborts, cancels every live request, clears the map and drops the channel. |
| `EngineHost.EngineHostConnection.CloseHost` | apps/desktop/src/engine-host-connection.ts:109-113 | Closing aborts the attachment under way. |
| `CloudIntent.ActionsRunLawfully` | apps/ios/App/WorkspaceModel.swift:266-326 | Over all runs with crashes, lost and late replies, sign-in and sign-out and failing vault writes: ids are never reused, requests carry the unresolved command, confirmed commands were executed, workspaces open only when nothing is unresolved, and what is shown as pending is in the vault. |
| `CloudIntent.RetriesCarryOneId` | apps/ios/App/CloudIntent.swift:15-20 | Requests for a workspace carry one id and one action until that command is erased. |
| `CloudIntent.NewCommandNeedsErasure` | apps/ios/App/WorkspaceModel.swift:281-289 | A second command is prepared only after the first was erased. |
| `CloudIntent.ExecutedAtMostOnce` | apps/ios/App/CloudIntent.swift:15-21 | A corollary: ids are drawn once and the server remembers them, so each prepared command executes at most once. |
| `CloudIntent.ConfirmedMeansExecutedOnce` | apps/ios/App/WorkspaceModel.swift:302-305 | A confirmed command was executed, exactly once. |
| `CloudIntent.UnrefusedIsExecuted` | apps/ios/App/WorkspaceModel.swift:302-317 | Unless refused, a command is executed before the next one of its workspace. |
| `CloudIntent.StrandedExactlyByRenewal` | apps/ios/App/WorkspaceModel.swift:273-275 | Only signing in again under the same identity leaves a workspace busy with no call to release it, and it does so to every busy workspace. |
| `CloudIntent.BusyMeansAttended` | apps/ios/App/WorkspaceModel.swift:273-275 | In runs without that, a workspace is busy exactly while a call works on it. |
| `CloudIntent.StrandedRefusesActions` | apps/ios/App/WorkspaceModel.swift:1069-1091 | A stranded workspace refuses every action for as long as the user stays signed in. |
| `CloudIntent.RefusedRunsExactly` | apps/ios/App/WorkspaceModel.swift:310-317 | A refused action can still run, and run again under another id, if and only if a request for it had left before the refusal. |
| `CloudIntent.RefusedRetryRunsTwice` | apps/ios/App/WorkspaceModel.swift:310-317 | A witness from the start: a retry refused for authentication, whose lost request was executed. |
| `CloudIntent.RefusedUnsentNeverRuns` | apps/ios/App/WorkspaceModel.swift:310-317 | An action refused before any request for it has left never runs, in any continuation. |
| `CloudIntent.WorkspaceModel.PrepareIntent` | apps/ios/App/CloudIntent.swift:15-20 | An entry with the same body keeps its id; otherwise a new id is written, or nothing if the vault fails. |
| `CloudIntent.WorkspaceModel.ControlCloud` | apps/ios/App/WorkspaceModel.swift:266-294 | Guards, conflict with an unresolved action, preparation and the busy mark. |
| `CloudIntent.WorkspaceModel.OnDraftSaved` | apps/ios/App/WorkspaceModel.swift:291-301 | A failed save or an ended generation stops the call before anything is sent. |
| `CloudIntent.WorkspaceModel.OnToken` | apps/ios/App/Account.swift:115-145 | A request leaves only in the generation it was made in. |
| `CloudIntent.WorkspaceModel.OnFailure` | apps/ios/App/WorkspaceModel.swift:310-325 | Only a definitive refusal in the same generation erases the intent. |
| `CloudIntent.WorkspaceModel.OnConfirmation` | apps/ios/App/WorkspaceModel.swift:302-306 | Erases vault entry and display, unless the generation is over or the vault fails. |
| `CloudIntent.WorkspaceModel.OnRefreshed` | apps/ios/App/WorkspaceModel.swift:306-309 | Releases the workspace and opens it after a wake. |
| `CloudIntent.WorkspaceModel.OpenCloud` | apps/ios/App/WorkspaceModel.swift:328-341 | Opens only without an unresolved action. |
| `CloudIntent.WorkspaceModel.RefreshPending` | apps/ios/App/WorkspaceModel.swift:226-236 | What is shown is read back from the vault. |
| `CloudIntent.WorkspaceModel.CompleteSignIn` | apps/ios/App/WorkspaceModel.swift:1069-1091 | A change of identity resets busy and pending; the same identity does not. |
| `CloudIntent.WorkspaceModel.SignOutOfAccount` | apps/ios/App/Account.swift:187-197 | The generation ends first, whether or not the credentials can be removed. |
| `PowerSummary.WeightsTelescope` | apps/desktop/src/power-monitor.ts:63-72 | The weights sum to last minus first exactly if samples are in order. |
| `PowerSummary.TotalsSplit` | apps/desktop/src/power-monitor.ts:63-72 | Total and weight split at any shared sample. |
| `PowerSummary.AverageBetween` | apps/desktop/src/power-monitor.ts:56-76 | The average lies between the extremes. |
| `PowerSummary.AveragesCombine` | apps/desktop/src/power-monitor.ts:56-76 | Averages of two parts sharing a sample combine by duration. |
| `PowerSummary.ComputeTimeWeightedAverage` | apps/desktop/src/power-monitor.ts:56-76 | The loop computes the weighted mean, with its two special cases. |
| `PowerSummary.SummaryIsConsistent` | apps/desktop/src/power-monitor.ts:105-141 | Rounded minimum, average and peak stay in order. |
| `PowerSummary.ConstantIsItsAverage` | apps/desktop/src/power-monitor.ts:56-76 | A constant quantity is its own average and peak. |
| `PowerSummary.KeepChanges` | apps/desktop/src/power-monitor.ts:420-433 | The loop of both timelines computes the compression. |
| `PowerSummary.ChangesShape` | apps/desktop/src/power-monitor.ts:420-433 | No two equal neighbours; the first point and the latest value are kept. |
| `PowerSummary.ChangesKeepValues` | apps/desktop/src/power-monitor.ts:511-528 | For ordered samples, the value in force at any time is the same before and after compression. |
| `PowerSummary.RecoveredExactlyWhenAgreeing` | apps/desktop/src/power-monitor.ts:511-528 | For samples in order, every sample's value is recovered if and only if samples of equal time agree. |
| `PowerSummary.ChangesIdempotent` | apps/desktop/src/power-monitor.ts:420-433 | Compression of a compressed timeline changes nothing. |
| `PowerSummary.GroupByProcess` | apps/desktop/src/power-monitor.ts:435-450 | Groups are exactly the metrics of each process in order, and their sizes add up to all metrics. |
| `PowerMonitor.RunKeepsOneInterval` | apps/desktop/src/power-monitor.ts:314-330 | At most one interval timer is live, the one the monitor would clear; a stopped monitor has none. |
| `PowerMonitor.IntervalStaysRightExactly` | apps/desktop/src/power-monitor.ts:155-209 | The interval matches mode and latest sample after every step except exactly two: starting during a recording or with a failing first sample, and an expired idle sample with nothing newer. |
| `PowerMonitor.IntervalIsAlwaysRight` | apps/desktop/src/power-monitor.ts:200-206 | Over runs without that, it always matches. |
| `PowerMonitor.IntervalFollowsDemand` | apps/desktop/src/power-monitor.ts:314-343 | Over such runs from the start: 5 s while recording, 60 s exactly when hidden and quiet, else 15 s. |
| `PowerMonitor.TimeoutsStayOwnedExactly` | apps/desktop/src/power-monitor.ts:211-243 | A live timeout belongs to the recording under way after every step except a recording whose first sample is past its end. |
| `PowerMonitor.RunKeepsOneTimeout` | apps/desktop/src/power-monitor.ts:211-243 | Over runs without that, it always does. |
| `PowerMonitor.LeftoverTimeoutEndsTheNext` | apps/desktop/src/power-monitor.ts:228-232 | Otherwise the left-over timeout ends the next recording: for all such runs. |
| `PowerMonitor.DroppingIsFilteringExactly` | apps/desktop/src/power-monitor.ts:184-190 | Dropping from the front is filtering if and only if no expired sample is behind a fresh one. |
| `PowerMonitor.RecentIsLastHour` | apps/desktop/src/power-monitor.ts:180-190 | With times that never go back, the samples kept are those of the last hour. |
| `PowerMonitor.RecordingIsContiguous` | apps/desktop/src/power-monitor.ts:192-243 | A finished recording is exactly the contiguous run of samples from startRecording to its end. |
| `PowerMonitor.PowerMeasurementMonitor.SampleAt` | apps/desktop/src/power-monitor.ts:180-209 | Push, expire, add to the recording or end it, reschedule. |
| `PowerMonitor.PowerMeasurementMonitor.DropExpiredSamples` | apps/desktop/src/power-monitor.ts:184-190 | The shifting loop. |
| `PowerMonitor.PowerMeasurementMonitor.ScheduleNextSamples` | apps/desktop/src/power-monitor.ts:314-330 | Clears the old interval before setting the new one. |
| `PowerMonitor.PowerMeasurementMonitor.CompleteRecording` | apps/desktop/src/power-monitor.ts:293-312 | Clears the timer, stores the recording, reschedules. |
| `PowerMonitor.PowerMeasurementMonitor.StartMonitor` | apps/desktop/src/power-monitor.ts:155-159 | Starting takes a sample and sets the interval through it. |
| `PowerMonitor.PowerMeasurementMonitor.StopMonitor` | apps/desktop/src/power-monitor.ts:161-173 | Both timers are cleared, a recording stays. |
| `PowerMonitor.PowerMeasurementMonitor.BeginRecording` | apps/desktop/src/power-monitor.ts:211-233 | Refused while one is active or for another duration. |
| `PowerMonitor.PowerMeasurementMonitor.EndRecording` | apps/desktop/src/power-monitor.ts:235-243 | Takes a sample for a recording that has none. |
| `ProfileStore.MemoryIsFoldOfCommitted` | apps/desktop/src/profile-store.ts:106-119 | Through failures and restarts, memory is what was last loaded with exactly the operations folded in whose persist succeeded, in submission order, plus the one under way. |
| `ProfileStore.ReadsAreCommittedExactly` | apps/desktop/src/profile-store.ts:84-92 | A reader sees uncommitted profiles exactly while a change that matters is under way. |
| `ProfileStore.FileMatchesExactlyWhenSynced` | apps/desktop/src/profile-store.ts:121-136 | Between changes file and memory agree if and only if no change since the last commit failed after its rename with effect. |
| `ProfileStore.FailedChangeReturns` | apps/desktop/src/profile-store.ts:130-135 | A change that fails after its rename, at any time, is undone in memory and comes back with a restart; so a committed profile can be lost. |
| `ProfileStore.RestartLoadsExactly` | apps/desktop/src/profile-store.ts:121-136 | A crash at any point of any run loads one whole state: with the change already renamed, or exactly the committed ones if and only if no change since the last commit failed after its rename with effect. |
| `ProfileStore.ServedInOrder` | apps/desktop/src/profile-store.ts:106-119 | Operations are served in submission order, past failures. |
| `ProfileStore.AtomicProfileStore.StartNext` | apps/desktop/src/profile-store.ts:107-109 | Copies, then updates in memory. |
| `ProfileStore.AtomicProfileStore.PersistProceeds` | apps/desktop/src/profile-store.ts:110-135 | Every phase of persist, with rollback. |
| `LocalePreference.SnapshotIsLastCommit` | apps/desktop/src/locale-preference.ts:65-104 | The revision counts commits and the preference is that of the last committed set. |
| `LocalePreference.RefreshNeverReverts` | apps/desktop/src/locale-preference.ts:66-70 | A refresh behind a set keeps the committed preference, and does nothing exactly if the locale is the same. |
| `LocalePreference.OnlyCommitsChange` | apps/desktop/src/locale-preference.ts:71-97 | Failed preparation or persistence changes nothing; a commit raises the revision by one. |
| `LocalePreference.FileIsLastReplacement` | apps/desktop/src/locale-preference.ts:88-95 | The file holds the preference of the last set that replaced it. |
| `LocalePreference.ServedInOrder` | apps/desktop/src/locale-preference.ts:69-103 | Requests are served in order, past failures. |
| `LocalePreference.LocaleController.ServeNext` | apps/desktop/src/locale-preference.ts:69-88 | Selects the preference when served, refuses unsupported ones, skips idle refreshes. |
| `LocalePreference.LocaleController.UpdateProceeds` | apps/desktop/src/locale-preference.ts:88-98 | Every await of an update, with its failures. |
| `RecordingStore.PruneKeepsMaximalRun` | apps/desktop/src/performance-recording-store.ts:45-70 | Survivors are the longest newest run of unexpired records within the limit. |
| `RecordingStore.SurvivorsAreNewest` | apps/desktop/src/performance-recording-store.ts:57-69 | On records sorted oldest first, nothing unexpired is removed that is newer than a survivor. |
| `RecordingStore.NewestTooLarge` | apps/desktop/src/performance-recording-store.ts:64-69 | Nothing survives if and only if the newest unexpired record alone is too large. |
| `RecordingStore.PruneIsIdempotent` | apps/desktop/src/performance-recording-store.ts:45-70 | Pruning again removes nothing. |
| `RecordingStore.PerformanceRecordingStore.RemoveExpired` | apps/desktop/src/performance-recording-store.ts:58-63 | Splicing by index is filtering; exactly the expired removable files go. |
| `RecordingStore.PerformanceRecordingStore.FitBytes` | apps/desktop/src/performance-recording-store.ts:64-69 | The loop removes the oldest until the rest fits; failed removals count as removed. |
| `RecordingStore.PerformanceRecordingStore.Prune` | apps/desktop/src/performance-recording-store.ts:45-70 | The files left are the survivors and what could not be removed. |

## Left out

- Updater.HandOffsAreSafe: electron-updater's events are assumed to arrive inside the operation that causes them; status
  listeners and writers are assumed not to call back into the object that notifies them.
- The timer that repeats a failed automatic check, the flag for electron-updater's own install on quit, a failing
  initialization of the channels, and the development-only demo.
- UpdateDownload.DownloadEnds: says nothing about when the stall timer fires, only what it may do whenever it does.
- PerformanceHistory.RollupAgreement: for capture times that do not go back, and without a flush or clear in mid-run.
- HistoryRestart.RestartAgreement: for files read before the first minute ends (LateRestoreAgreesExactly says what happens
  otherwise), at least two of them, and a file system that obliges; every line decodes to the entry it encodes, and
  entries written while the files are read are not considered.
- HistoryRestart.LateRestartAgreement: while the restored rollups and the session's own fit into memory; beyond that the
  trim takes the newer ones first; LateRestoreForgetsExactly covers only the case that the restored ones fill it.
- The lag samples of the history are only trimmed, queued and filtered; `clear` and `storageBytes` are not modelled.
- HistoryRotation.RunReadsSuffix: for at least two files and a file system that obliges; RunReadsSubsequence covers every failure.
- The JSON of stored lines: lines are opaque with a length in bytes.
- `appendRotatingLogFile`, a single step of the rotation that is modelled for the history.
- Incident thresholds, contributors, battery drain and hotspot ordering of the performance analysis: each is settled
  by reading one branch. Hotspots group processes by the loop that `GroupByProcess` models.
- The warnings shown by the awake controller, and its listeners. The helper process is one of running, killed, exited.
- The account callback, host events and state frames of the host connection, and what its requests compute.
- CloudIntent.ActionsRunLawfully: the identity is taken to change only by signing in or out, not by a token refresh; a failing
  draft save or vault access is not a definitive refusal; ids drawn at random are taken to be new.
- CloudIntent.ExecutedAtMostOnce: rests on a server that remembers every id it executed, and confirms only those.
- The draft, the disconnection and the last-workspace entry of a cloud action, and the catalog's contents.
- PowerSummary.AverageBetween: over exact reals; floating-point rounding inside the sums is not modelled.
- The five highest samples of a recording, the order of process reports, and the environment part of a report.
- PowerMonitor.RecentIsLastHour: for times that never go back; DroppingIsFilteringExactly says what happens otherwise.
- The power monitor's listeners and state summary.
- The profile file is modelled by the profiles it holds, not by its text; `load` is modelled at start only, and not
  while a change is under way; temporary files are not.
- What system languages resolve to is an input of the locale controller, as is the list of locales it supports.
- The listing of the recording directory, the sorting by modification time, and saving a recording.
- Windows, menus, renderer bridges, views, and the packages behind the launcher, supervisor and transports.
