# mate-screensaver, verified

A Dafny model of the parts of mate-screensaver in which state is shared between
callbacks, processes or threads, with proofs of what they keep over every run.

**The lock and activation state machine.** `ScreensaverModel` gives one step function per
top-level main-loop callback: D-Bus requests, presence changes, timers, preference
changes, monitor hot-plug, window and job events, lines printed by the unlock dialog and
deferred idle callbacks. Signals have one handler each, so emitting one is a call; the
watcher's idle timer reaches the listener, the manager and the watcher again.
`ManagerModel`, `JobTable` and `Jobs` are the layers below, down to signals sent to and
waits on child processes. `ManagerProofs`, `ManagerLifecycle`, `HotPlug` and
`ScreensaverProofs` prove that every callback keeps one invariant. `JobWalks`,
`ManagerEffects`, `JobEffects`, `ScreensaverEffects` and `Responses` prove the other half,
that every callback does what its event asks for, and `Scenarios` what follows from it,
from the moment the user goes idle to the locked screen. `ScreensaverRuns`,
`Answers`, `CallbackAnswers`, `Provenance`, `IdleTrace`, `LockHolds` and `ThrottleGap` draw
the conclusions for whole runs. The classes `ScreenManager`, `DBusListener`, `IdleWatcher`,
`Monitor`, `SaverJob` and `JobHash` do the same work in place, with the loops over windows,
jobs and tables, and each method is proved to take the model's step.

**The authentication conversation.** `Framing` is the wire format with partial reads and
writes; `HelperLoops` the two loops built on it; `LockStep` the two processes under every
interleaving and chunking, with pipes of any capacity; `PamHandshake` the mutex and
condition hand-over of the in-process variant; `DialogProcess` the dialog that prints
`RESPONSE=OK`. `EndToEnd` couples the saver, a dialog process per spawned dialog and a
helper conversation per attempt.

**The slideshow.** `SlideshowPipeline` is the load pipeline under every interleaving of
main and worker thread, `SlideshowFade` the incremental compositing over the reals, and
`Slideshow` the widget's callbacks in place.

**Two smaller pieces.** `Coverage` places windows on overlapping monitors; `UriList`
parses `text/uri-list` (section 5 of RFC 2483).

## Assumptions

- Whether a grab or a spawn succeeds, where the pointer is, in which order a hash table
  lists its keys, the random cookies and the session manager's answers are inputs of every
  callback. A cookie that the uniqueness loop would have rejected makes the request a
  no-op, as if the loop were still drawing; the session manager never hands out a cookie
  that it already holds for us.
- `time()` and the timers of the main loop read the same clock, which starts at one second
  or later and never runs backwards. A lock timer is dispatched only once it is due.
- A display has at least one monitor, and monitors are distinct objects.
- A saver exits on SIGTERM unless it is stopped, and its standard error closes only when
  it exits, so `waitpid` returns unless the child is stopped; a wait on a stopped child is
  recorded as `stuck`, which is proved not to happen.
- Integers that the C code stores in `glong`, `guint` or `size_t` are unbounded here where
  the values are bounded by construction (the lock timeout is clamped to 480 minutes,
  `LockIntervalFits` bounds the interval); the framing models the 8-byte `size_t` and the
  4-byte `int` byte by byte, in little-endian order.
- A blocking `write` of some bytes to a pipe does not return zero. `WriteMsg` and
  `WritePrompt` say what would be missing if it did.

## What turned out not to hold

- A locked screen stays locked only if no deactivation is under way: a deactivation passes
  through two deferred callbacks, so one that was requested before the lock engages still
  arrives. `LockHoldsIff` gives the exact condition in every reachable state,
  `LockedTooLate` and `LockedTooLateFromStart` the inputs. The condition counts only tokens
  of windows that still exist, because the model drops the others; the source does not
  remove a window's deferred callback when the window is destroyed
  (`src/gs-window-x11.c:641-653`), and what that callback then does is not part of this
  model. A remembered RESPONSE=OK is not
  another way: nothing resets it, but `RememberedOnlyWhilePending` shows that it only ever
  repeats a deactivation that is already queued.
- Lifting the throttle does not get every saver running: `LiftWakesAllIff` gives the exact
  condition, `StaysSuspended` and `SuspendedRun` the runs.
- Showing the slideshow a second time doubles its load token unless a load is scheduled
  at that moment: `ShownAgain`, `ShownTwiceDoubles`.
- The single `g_cond_wait` of the PAM hand-over is not in a loop. A spurious wake-up cannot
  make the answer TRUE (`SuccessMeansAllAnswered`), but it leaves a callback behind that
  refers to a stack frame that is gone: `CallbackInTime`, `LeftBehindIff` (exactly when it
  can happen) and `SpuriousWakeupLeavesCallbackBehind` (a run).
- Prompts of type 0 block both sides of the helper protocol, and nothing else does:
  `BlockedExactlyIfSkipped`, `SkippedForGood`, `TypeZeroBlocksBoth` (a run).
- A comment that follows a blank line is parsed as a URI: `BlankLines`.

## Model

| member | source | states |
|---|---|---|
| `Provenance.ComponentsAgree` | src/gs-monitor.c:233-265 | in every state of every run, listener and manager agree on being active and the watcher watches exactly otherwise; active implies idle; idle but inactive only if idleness was entered with activation disabled; both throttle flags equal "some throttler"; locked implies active; the start times are set exactly while their flags are |
| `IdleTrace.IdleOnlyTrace` | src/gs-listener-dbus.c:474-519 | an idle session without an active saver was entered by the idle timer with activation disabled, and has been idle and inactive ever since |
| `Provenance.LedgerBalances` | src/gs-listener-dbus.c:614-831 | in every state of every run, table keys are the cookies of their entries and the session manager holds exactly the proxied inhibits of the table, one for one, plus those whose release failed |
| `Provenance.DeadlineAlwaysSet` | src/gs-manager.c:556-618 | in every state of every run that is active and unlocked, a lock timer is due within the second that starts at activation time plus timeout, or that time has passed and the saver has lapsed |
| `Provenance.LapseTrace` | src/gs-manager.c:556-567 | a lapsed saver let its timeout run out at an earlier callback of the same activation that found locking disabled |
| `Provenance.NoSaverExecutes` | src/gs-manager.c:196-363 | in every state, throttled or under the dialog no child process is executing; the job of an obscured window has no process; while inactive there is no child; no wait ever hangs |
| `Provenance.OneDialogAtMost` | src/gs-manager.c:1385-1475 | in every state at most one dialog is up, the manager's flag says whether, the insensitive windows are the others, and AUTH_REQUEST_BEGIN and END alternate strictly |
| `Provenance.WindowsMatchMonitors` | src/gs-manager.c:1536-1667 | while active one window and one job per monitor, all with lock_enabled equal to lock_active; while inactive no windows, jobs or timers |
| `Provenance.ChildrenConserved` | src/gs-job.c:459-613 | the unreaped children are exactly the positive pids in the jobs table, each held by one job |
| `Provenance.ActivationAllowed` | src/gs-listener-dbus.c:330-359 | a step that activates the saver is an explicit Lock or SetActive, or nothing inhibits it and activation is enabled |
| `Provenance.LockNeverReverts` | src/gs-manager.c:453-471 | once locked, locked for as long as the saver stays active |
| `Provenance.AnswersTrace` | src/gs-window-x11.c:1605-1618 | every remembered OK was printed earlier in the run by the running dialog of that window |
| `Provenance.QueuesTrace` | src/gs-window-x11.c:1761-1792 | every queued deactivation was queued at an earlier callback, after the running dialog of that window had printed RESPONSE=OK, or while the screen was showing but not locked |
| `Provenance.DeactivationTrace` | src/gs-window-x11.c:641-653 | every deactivation of a run is an explicit request, or a manager idle whose own token was rightly queued |
| `LockHolds.RememberedOnlyWhilePending` | src/gs-window-x11.c:1640-1655 | in every state of every run a window remembers an OK only while the deactivation that it caused is queued |
| `LockHolds.LockedStaysLocked` | src/gs-window-x11.c:1566-1661 | from a locked state with no deactivation under way, no run without RESPONSE=OK and without an explicit request unlocks |
| `LockHolds.LockHoldsIff` | src/gs-manager.c:1077-1100 | in every reachable locked state the lock holds through every run without a release if and only if nothing is queued at the manager and nothing at a window that still exists |
| `LockHolds.PendingTokenUnlocks` | src/gs-manager.c:1077-1100 | a token already on its way deactivates a screen locked in the meantime |
| `LockHolds.LockedTooLate` | src/gs-manager.c:1077-1100 | a click on an unlocked screen and then a lock request leave a locked screen whose lock does not hold |
| `LockHolds.LockedTooLateFromStart` | src/gs-monitor.c:167-189 | the same reached from the start: activate, click, lock |
| `EndToEnd.UnlockIsEarned` | src/gs-window-x11.c:1566-1661 | saver, dialogs and helpers together: a locked screen with no deactivation under way stays locked until an explicit request, or until a window reads RESPONSE=OK from the dialog it watches, and in a helper of that very dialog pam_authenticate had succeeded, or that dialog had failed to initialise locking |
| `EndToEnd.DeactivationIsEarned` | src/gs-window-x11.c:641-653 | in every run of the coupled system each deactivation is an explicit request, or uses up a token that an earlier act appended, after its window had read an OK that the dialog had earned, or while the screen was showing but not locked |
| `EndToEnd.EveryDialogBacked` | src/mate-screensaver-dialog.c:339-376 | a dialog that says OK earned it itself: since it was started, its own attempt was accepted by PAM, or it could not initialise locking |
| `EndToEnd.CorrectPasswordUnlocks` | src/mate-screensaver-dialog.c:339-351 | the other direction: from any state in which a watched dialog waits for an attempt, if PAM accepts the user the saver is deactivated five acts later |
| `ThrottleGap.StaysSuspended` | src/gs-manager.c:411-456 | whatever the state, a saver with a process when throttling begins under the dialog is still suspended when the dialog is closed and the throttle lifted |
| `ThrottleGap.SuspendedRun` | src/gs-manager.c:1425-1456 | a run from the start in which that happens |
| `ThrottleGap.LiftWakesOne` | src/gs-manager.c:411-434 | lifting the throttle, saver by saver: one that is not obscured and could be started runs afterwards if and only if it had no process before |
| `ThrottleGap.LiftWakesAllIff` | src/gs-manager.c:411-434 | lifting the throttle gets every such saver running if and only if none of them had a process |
| `ScreensaverRuns.EveryStateOk` | src/gs-monitor.c:415-436 | the invariant of the whole saver holds in every state of every run |
| `ScreensaverRuns.StepExplained` | src/gs-monitor.c:167-344 | each of the 24 callbacks keeps the invariant and changes activity, locking, lapse and queues only as its event explains |
| `ScreensaverProofs.StartOk` | src/gs-monitor.c:415-436 | the state after start-up satisfies the invariant, with nothing active, queued, inhibited or throttled, and with the preferences stored in milliseconds |
| `ScreensaverProofs.TurnOn` | src/gs-listener-dbus.c:438-472 | activation through the listener, with a grab that may fail: all components change together or none does |
| `ScreensaverProofs.TurnOff` | src/gs-listener-dbus.c:438-472 | deactivation tears everything down in all components, or nothing happens |
| `ScreensaverProofs.CheckActivationKeeps` | src/gs-listener-dbus.c:330-359 | a re-check activates an idle session if and only if activation is enabled, nothing inhibits it and the grab succeeds; otherwise manager and watcher do not move |
| `ScreensaverProofs.IdleTimeoutKeeps` | src/gs-watcher-x11.c:337-352 | the re-entrant chain through the idle timer keeps the invariant, despite a failing activation |
| `ScreensaverProofs.PresenceKeeps` | src/gs-watcher-x11.c:354-397 | every presence status keeps the invariant |
| `ScreensaverProofs.InhibitKeeps` | src/gs-listener-dbus.c:763-786 | a new inhibitor gets a fresh key and keeps the ledger one for one with the session manager |
| `ScreensaverProofs.UnInhibitKeeps` | src/gs-listener-dbus.c:788-831 | removing an inhibitor removes it alone, gives back its proxied inhibit, up to a failed call, and activates an idle session that it was the last to hold back; an unknown cookie changes nothing |
| `ScreensaverProofs.ThrottleKeeps` | src/gs-listener-dbus.c:361-392 | throttle flags of listener and manager follow the table |
| `ScreensaverProofs.ConnectionLostKeeps` | src/gs-listener-dbus.c:1052-1125 | losing a connection removes exactly its inhibitors and throttlers and keeps the invariant |
| `ScreensaverProofs.LockScreenKeeps` | src/gs-monitor.c:167-189 | locking sets the flag first and restores it if activation fails; the invariant holds afterwards |
| `ScreensaverProofs.PrefsKeep` | src/gs-monitor.c:288-344 | any preferences are stored, clamped and in milliseconds, keep the invariant and never unlock |
| `Responses.StepResponds` | src/gs-monitor.c:167-344 | the response to each of the 24 events, said without the functions that compute it: after every callback who is active, locked, asked, started or stopped, what each table holds, and that nothing else has moved |
| `Scenarios.EveryCallbackResponds` | src/gs-monitor.c:415-436 | the same for every callback of every run |
| `Scenarios.IdleThenLocked` | src/gs-monitor.c:288-344 | from any state with a user present: when the user goes idle every monitor is covered, and it is locked once the minutes of the preferences have passed, and not before |
| `Scenarios.IdleActivates` | src/gs-listener-dbus.c:330-359 | the idle timer activates the saver if and only if the session was not idle, activation is enabled, nothing inhibits it and the grab succeeds |
| `Scenarios.UnInhibitActivates` | src/gs-listener-dbus.c:788-831 | removing an inhibitor activates if and only if it was the last one of an idle session with activation enabled, and the grab succeeds |
| `Scenarios.ConnectionLossActivates` | src/gs-listener-dbus.c:1052-1125 | the same for a connection that is lost with the last inhibitors |
| `Scenarios.AskedOnPointersMonitor` | src/gs-manager.c:1919-1957 | on a locked saver activity raises the dialog on the window of the pointer's monitor and on no other |
| `Scenarios.InhibitThenUnInhibit` | src/gs-listener-dbus.c:763-831 | inhibiting and taking it back restores the tables and what the session manager holds |
| `Scenarios.CancelledDialog` | src/gs-manager.c:1385-1475 | a dialog that comes up and is cancelled opens and ends one request, queues nothing, and leaves every saver its process, running again |
| `ScreensaverEffects.SetActiveDoes` | src/gs-listener-dbus.c:438-472 | SetActive(TRUE) activates exactly if the grab succeeds, with start times, timers and jobs as they must be; SetActive(FALSE) tears everything down |
| `ScreensaverEffects.LockDoes` | src/gs-monitor.c:167-189 | a lock request locks every window of a running saver, or activates it locked, or without the grab leaves it unlocked |
| `ScreensaverEffects.IdleTimerDoes` | src/gs-watcher-x11.c:337-352 | the idle timer is used up exactly if the session becomes idle, which activates the saver or, with activation disabled, is only noted |
| `ScreensaverEffects.StatusDoes` | src/gs-watcher-x11.c:354-397 | status 3 arms the idle timer and gives notice unless opposed; any other status takes timer, notice and idleness back |
| `ScreensaverEffects.InhibitDoes` | src/gs-listener-dbus.c:763-786 | a request with a fresh cookie adds exactly that entry, with its connection and the session manager's answer; any other changes nothing |
| `ScreensaverEffects.UnInhibitDoes` | src/gs-listener-dbus.c:788-831 | exactly that inhibitor goes; its proxied inhibit is given back, or leaks if the call failed; an unknown cookie changes nothing |
| `ScreensaverEffects.ThrottleDoes` | src/gs-listener-dbus.c:763-786 | a request with a fresh cookie adds exactly that throttler and, without a dialog, leaves no saver process |
| `ScreensaverEffects.UnThrottleDoes` | src/gs-listener-dbus.c:788-831 | exactly that throttler goes; with the last one the savers that have no process are started |
| `ScreensaverEffects.ConnectionDoes` | src/gs-listener-dbus.c:1052-1125 | exactly that connection's throttlers and inhibitors go, with the same effects |
| `Responses.PrefsDo` | src/gs-prefs.c:170-198 | minutes arrive in the manager as milliseconds, between 0 (or 1) and 480 minutes; locking is enabled if wanted and not disabled; a running saver is locked at once if and only if the new timeout has passed |
| `Responses.LockTimerDoes` | src/gs-manager.c:556-567 | a due timer locks every window if locking is enabled and changes nothing else but itself |
| `ManagerProofs.PointerWindowListed` | src/gs-manager.c:1102-1144 | the window found is on the pointer's monitor and none after it is; if no window is, it is the first one |
| `ManagerEffects.UnlockRequest` | src/gs-manager.c:1919-1957 | on a locked saver exactly that window gets the dialog, the others go insensitive, one request begins and the savers are suspended with their processes; on an unlocked one its deactivation is queued; otherwise nothing happens |
| `ManagerEffects.DialogEnds` | src/gs-window-x11.c:1566-1661 | RESPONSE=OK, RESPONSE=CANCEL and the end of output take the dialog down with watch and pending spawn, end the request, resume the savers unless throttled, remember and queue the answer; other lines and read errors leave all that alone |
| `ManagerEffects.PopdownEnds` | src/gs-manager.c:1425-1456 | closing the dialog while not throttled leaves every saver that has a process running with it, and starts those that have none |
| `JobWalks.SignalAll` | src/gs-manager.c:324-363 | the walk, in any order: every job keeps its process, suspended or running again |
| `JobWalks.ResumeAll` | src/gs-manager.c:324-346 | the walk, in any order: every job that is not obscured and may start runs afterwards, in its old process or a new one |
| `JobWalks.CycleAll` | src/gs-manager.c:281-298 | the walk, in any order: every saver is replaced, and runs in a new process exactly if its new theme has a command and its window is not obscured |
| `JobEffects.ThrottleEnds` | src/gs-manager.c:411-434 | throttling without a dialog leaves no child process, lifting it starts the savers that have none; under the dialog nothing happens |
| `JobEffects.CycleReplaces` | src/gs-manager.c:706-732 | cycling replaces every saver, and does nothing while inactive, throttled or under the dialog |
| `JobEffects.MapStarts` | src/gs-manager.c:196-240 | a mapped window starts its saver exactly if it has none and nothing forbids it, and touches no other |
| `JobEffects.ObscureEffect` | src/gs-manager.c:1352-1383 | covering a window ends its saver and no other; uncovering it starts the saver and asks to unlock |
| `JobEffects.PlugAsks` | src/gs-manager.c:1568-1596 | a new monitor on a running saver gets its window and job, the others keep their processes, and the dialog is up again exactly if the saver is locked |
| `JobEffects.ActivationArms` | src/gs-manager.c:1306-1350 | activation arms the lock timer at now plus timeout and the cycle timer from ten seconds on, and gives each window a job with the command of its theme |
| `ManagerProofs.PopdownKeeps` | src/gs-window-x11.c:1540-1564 | taking a dialog down keeps the base invariant: sensitivity, signals, jobs resumed only if not throttled |
| `ManagerProofs.RaiseKeeps` | src/gs-window-x11.c:1761-1792 | raising a dialog keeps uniqueness, opens exactly one request, and the dialog is up afterwards |
| `ManagerProofs.RequestUnlockKeeps` | src/gs-manager.c:1919-1957 | a request to unlock keeps the invariant and queues a deactivation only on an unlocked window |
| `ManagerProofs.LockCommandWatchKeeps` | src/gs-window-x11.c:1566-1661 | the watch takes the dialog down, ending its request, exactly when it answers or its output ends, and then queues a deactivation exactly when the last response was OK |
| `ManagerProofs.PopupDialogIdleKeeps` | src/gs-window-x11.c:1694-1759 | spawning the dialog, or failing to, keeps the invariant |
| `ManagerProofs.SetThrottledKeeps` | src/gs-manager.c:411-434 | throttling keeps the job exclusion in every combination with the dialog |
| `ManagerProofs.SetObscuredKeeps` | src/gs-manager.c:1352-1383 | an obscured window's job has no process; uncovering may start it and asks to unlock |
| `ManagerProofs.MapEventKeeps` | src/gs-manager.c:1238-1250 | mapping a window starts its job only when nothing forbids it |
| `ManagerProofs.JobWatchKeeps` | src/gs-job.c:396-445 | the end of a child's output reaps exactly that child and keeps the invariant |
| `ManagerProofs.CycleKeepsInv` | src/gs-manager.c:706-732 | cycling every job keeps conservation and exclusion |
| `ManagerLifecycle.LockKeeps` | src/gs-manager.c:453-471 | locking reaches every window |
| `ManagerLifecycle.LockTimerFiresKeeps` | src/gs-manager.c:556-567 | a due timer is used up and locks every window if locking is enabled, or records the lapse; one that is not due does nothing |
| `ManagerLifecycle.SetLockTimeoutKeeps` | src/gs-manager.c:588-618 | any change of the timeout keeps the deadline and never unlocks |
| `ManagerLifecycle.LockIntervalFits` | src/gs-manager.c:579-618 | the interval handed to the main loop is positive and fits 32 bits |
| `ManagerLifecycle.LockedByDeadline` | src/gs-manager.c:556-618 | once the deadline has passed and its timer was dispatched, all windows are locked |
| `ManagerLifecycle.SetCycleTimeoutKeeps` | src/gs-manager.c:767-798 | changing the cycle timeout keeps the invariant |
| `ManagerLifecycle.StopJobsKeeps` | src/gs-manager.c:365-374 | destroying the table stops every job and leaves no child |
| `ManagerLifecycle.NoDialogLeft` | src/gs-manager.c:1638-1667 | destroying the windows takes every dialog down and leaves no authentication request open |
| `ManagerLifecycle.DeactivateKeeps` | src/gs-manager.c:1860-1890 | deactivation reaches the inactive shape: no windows, jobs, children, timers or lock |
| `ManagerLifecycle.ActivateKeeps` | src/gs-manager.c:1803-1858 | activation reaches one shown window and job per monitor with the timers armed, or changes nothing |
| `HotPlug.MonitorAddedKeeps` | src/gs-manager.c:1568-1596 | the display gains the monitor, a running saver exactly one window on it; dialogs are taken down, the deadline re-armed, the invariant kept |
| `HotPlug.MonitorRemovedKeeps` | src/gs-manager.c:1598-1636 | exactly the windows of that monitor go, with their jobs; locking, queues and the invariant are kept |
| `CallbackAnswers.StepAnswers` | src/gs-window-x11.c:1605-1618 | of all callbacks only RESPONSE=OK of the window's own running dialog makes it remember an answer; window ids are never reused, and tokens name windows that existed when queued |
| `JobTable.PutKeeps` | src/gs-manager.c:122-177 | replacing one job with a change at its own pid keeps conservation for all |
| `JobTable.ApplyKeeps` | src/gs-manager.c:281-363 | one visit of stop, suspend, resume, start or cycle keeps the table and touches no other job |
| `JobTable.ApplyAllKeeps` | src/gs-manager.c:291-363 | a walk in any hash order keeps the table; stopping leaves no process, suspending none executing |
| `JobTable.StopAllLeavesNone` | src/gs-manager.c:1782-1792 | stopping every job leaves no child unreaped |
| `JobTable.QuietTableHasNoExecutingChild` | src/gs-manager.c:348-363 | with all jobs quiet no child executes |
| `JobTable.StartWakesUnlessSuspended` | src/gs-manager.c:196-240 | one visit: a job that may start is running afterwards if and only if it was not suspended |
| `JobTable.StartAll` | src/gs-manager.c:300-322 | the whole walk, in any order: every job that may start gets running if and only if it was not suspended |
| `JobTable.JobHupKeeps` | src/gs-job.c:396-445 | a watched job whose child has exited lets go of exactly that child; otherwise nothing happens |
| `Jobs.StopReaps` | src/gs-job.c:564-592 | stopping a job continues a suspended child, reaps exactly that child and never waits on a stopped one |
| `Jobs.StoppingWithoutContinueHangs` | src/gs-job.c:564-592 | without the continue the wait would hang |
| `Jobs.SaverJob.StopJob` | src/gs-job.c:564-592 | from a consistent job only this job's child disappears and no wait hangs |
| `JobObjects.JobHash.VisitAll` | src/gs-manager.c:291-363 | the walk over the job objects, which share one kernel, is the walk over their values |
| `JobObjects.JobHash.OutputClosed` | src/gs-job.c:396-445 | the end of output reaps the child of that object and of no other |
| `JobObjects.JobHash.Destroy` | src/gs-manager.c:1782-1792 | destroying the table of objects leaves no child and no hung wait |
| `ManagerObject.ScreenManager.WalkTheJobs` | src/gs-manager.c:291-363 | the loop over the jobs table takes the model's walk |
| `ManagerObject.ScreenManager.LockWindows` | src/gs-manager.c:462-469 | the loop over the window list locks all of them |
| `ManagerObject.ScreenManager.LetOnlyOneListen` | src/gs-manager.c:1399-1407 | the loop makes all windows but one insensitive |
| `ManagerObject.ScreenManager.LetAllListen` | src/gs-manager.c:1442-1446 | the loop makes all windows sensitive |
| `ManagerObject.ScreenManager.PopdownDialogs` | src/gs-manager.c:1581-1589 | the loop takes every dialog down |
| `ManagerObject.ScreenManager.CreateAllWindows` | src/gs-manager.c:1711-1738 | the loop makes a window for each monitor |
| `ManagerObject.ScreenManager.ShowAllWindows` | src/gs-manager.c:1771-1780 | the loop shows every window |
| `ManagerObject.ScreenManager.FindWindowAtPointer` | src/gs-manager.c:1102-1144 | the loop finds the last listed window that is on the pointer's monitor; if none is, the first window |
| `ManagerObject.ScreenManager.DisplayMonitorRemoved` | src/gs-manager.c:1598-1636 | the loop that removes windows while it walks the list |
| `Screensaver.DBusListener.RemoveInhibitorsOf` | src/gs-listener-dbus.c:1052-1092 | the loop removes one connection's inhibitors and releases their proxied inhibits |
| `Screensaver.DBusListener.RemoveThrottlersOf` | src/gs-listener-dbus.c:1052-1092 | the loop removes one connection's throttlers |
| `Screensaver.Monitor.Dispatch` | src/gs-monitor.c:358-413 | one callback of the running objects is one step of the model and keeps the invariant |
| `Framing.NumberOfBytes` | helper/helper_proto.c:56-84 | a length survives its encoding |
| `Framing.MsgRoundTrip` | helper/helper_proto.c:56-84 | a written message is read back, whatever follows it |
| `Framing.PromptRoundTrip` | helper/helper_proto.c:86-105 | a written prompt is read back with type and text |
| `Framing.StreamRoundTrip` | helper/helper_proto.c:56-167 | any sequence of prompts is read back in order, the rest of the stream untouched |
| `Framing.ZeroMeansEndOrTypeZero` | helper/helper_proto.c:92-93 | when exactly the reader returns zero |
| `Framing.ReadAll` | helper/helper_proto.c:35-54 | under any partial reads: all bytes asked for, or up to end of file; nothing written past them |
| `Framing.ReadMsg` | helper/helper_proto.c:56-84 | every stream yields the message or the right error code, NUL-terminated, inside the caller's buffer |
| `Framing.ReadPrompt` | helper/helper_proto.c:86-105 | the same for prompts, with the indeterminate length at end of file as an input |
| `Framing.WriteAll` | helper/helper_proto.c:107-126 | under any partial writes: a prefix of the data, whole if nothing fails |
| `Framing.WriteMsg` | helper/helper_proto.c:128-151 | success means the whole frame was sent, except exactly when the first call accepts nothing |
| `Framing.WritePrompt` | helper/helper_proto.c:153-167 | the frame of the prompt is sent if nothing fails; which part a success may lack, and exactly when; error codes otherwise |
| `Framing.SendAndReceive` | helper/helper_proto.c:35-167 | the code's own round trip: under any partial writes and any partial reads every sequence of prompts arrives, and the bytes that follow are untouched |
| `HelperLoops.Converse` | helper/pam-helper.c:111-161 | succeeds only if every message was answered in order, otherwise no replies |
| `HelperLoops.ExtRun` | src/gs-auth-helper.c:141-180 | serves the prompts in order; TRUE exactly if nothing failed and the helper exited with status 0 |
| `HelperLoops.RepliesAnswerPrompts` | src/gs-auth-helper.c:141-180 | what the dialog sends is read by the helper as its answers, in order |
| `LockStep.StepKeeps` | src/gs-auth-helper.c:141-180 | every action of either process keeps the lock-step invariant |
| `LockStep.RunKeeps` | helper/pam-helper.c:111-201 | the invariant holds after every run |
| `LockStep.OneFrameInFlight` | src/gs-auth-helper.c:141-180 | never bytes in both pipes; what is in one is a piece of the latest frame |
| `LockStep.RepliesInOrder` | helper/pam-helper.c:123-150 | PAM's n-th reply is the user's answer to its n-th prompt |
| `LockStep.EverythingAsked` | helper/pam-helper.c:111-161 | whenever the conversation function has returned, every message of every call was asked, shown in order, and answered |
| `LockStep.NeverBothBlocked` | src/gs-auth-helper.c:141-180 | if PAM asks nothing of type 0, one side can always move until the helper exits, with pipes of any capacity, and the dialog does not give up |
| `LockStep.BlockedExactlyIfSkipped` | src/gs-auth-helper.c:141-180 | in every run, before the helper exits both sides are blocked if and only if a prompt of type 0 was passed over and the dialog is reading again |
| `LockStep.SkippedForGood` | src/gs-auth-helper.c:148-148 | a prompt that was passed over stays so, and the helper never exits |
| `LockStep.CanMoveMeansEnabled` | helper/helper_proto.c:35-54 | a side that can move has a concrete read or write to do |
| `LockStep.VerdictIsPams` | src/gs-auth-helper.c:171-184 | the dialog's result is exactly whether pam_authenticate succeeded, reached within two steps of the helper's exit |
| `LockStep.InternalStepsEnd` | src/gs-auth-helper.c:141-180 | reads, writes and polls use up the exchange: only finitely many in a row |
| `LockStep.TypeZeroBlocksBoth` | src/gs-auth-helper.c:148-148 | a run of six actions from the start after which both sides wait for each other |
| `PamHandshake.SuccessMeansAllAnswered` | src/gs-auth-pam.c:197-234 | under every interleaving, even with spurious wake-ups, the thread goes on only after TRUE for that message, each asked once and in order |
| `PamHandshake.FailureMeansRefusal` | src/gs-auth-pam.c:197-234 | without spurious wake-ups it fails only on a FALSE answer |
| `PamHandshake.NoMissedWakeup` | src/gs-auth-pam.c:161-234 | when the callback signals, the thread waits for that message; a waiting thread has its callback on the way |
| `PamHandshake.NeverStuck` | src/gs-auth-pam.c:161-234 | until the conversation is over one thread can move |
| `PamHandshake.CallbackInTime` | src/gs-auth-pam.c:197-234 | a callback outlives its caller only after a spurious wake-up |
| `PamHandshake.LeftBehindIff` | src/gs-auth-pam.c:197-234 | in every run, a waiting thread can still be made to leave its callback behind if and only if the callback has not taken the mutex |
| `PamHandshake.SpuriousWakeupLeavesCallbackBehind` | src/gs-auth-pam.c:224-226 | a run in which that happens, for any number of messages |
| `PamHandshake.PamConversation` | src/gs-auth-pam.c:236-337 | all messages answered in order, or no replies; the first refusal ends the conversation |
| `DialogProcess.OkIsEarned` | src/mate-screensaver-dialog.c:96-127 | RESPONSE=OK at most once and only after verification or failed lock initialisation; at most MAX_FAILURES attempts |
| `DialogProcess.StillWaiting` | src/mate-screensaver-dialog.c:339-376 | every failure but the last is announced and leaves the dialog waiting for another attempt |
| `DialogProcess.VerifiedInTheEnd` | src/mate-screensaver-dialog.c:339-351 | a user who is verified after up to four failures gets RESPONSE=OK |
| `DialogProcess.FiveFailures` | src/mate-screensaver-dialog.c:353-376 | after five failures no attempt is taken any more; the dialog asks to be ended, and ends |
| `DialogProcess.DialogMain` | src/mate-screensaver-dialog.c:549-611 | the process itself, dispatching its callbacks in place: what it prints, whatever happens to it |
| `SlideshowPipeline.PullStepKeeps` | savers/gste-slideshow.c:423-446 | every step of either thread keeps results, pull callback and its id together |
| `SlideshowPipeline.OneToken` | savers/gste-slideshow.c:109-141 | after one show, under every interleaving, exactly one load is scheduled, queued, loading, pending as result or fading |
| `SlideshowPipeline.NoResultLost` | savers/gste-slideshow.c:423-446 | outside the locked sections a result is queued exactly if a pull callback is on its way; the assertion never fails |
| `SlideshowPipeline.ShownAgain` | savers/gste-slideshow.c:834-855 | a second show keeps the single token if and only if a load is scheduled |
| `SlideshowPipeline.ShownTwiceDoubles` | savers/gste-slideshow.c:834-855 | a second show while the first load is queued gives two tokens |
| `SlideshowPipeline.TokenCanMove` | savers/gste-slideshow.c:662-715 | the pipeline never stalls before the next fade |
| `SlideshowPipeline.FadesWithImage` | savers/gste-slideshow.c:391-405 | a fade starts exactly when the main thread takes a result with an image; one without schedules a load |
| `SlideshowPipeline.ImageComesUp` | savers/gste-slideshow.c:423-446 | however the threads have been interleaved, an image can come up within a bounded number of steps if the loads from now on succeed |
| `SlideshowFade.BordersTile` | savers/gste-slideshow.c:244-309 | image and four borders cover every pixel of the window exactly once, whatever the sizes |
| `SlideshowFade.PaintedOnce` | savers/gste-slideshow.c:230-325 | one repaint blends every pixel of the window exactly once |
| `SlideshowFade.MixStep` | savers/gste-slideshow.c:364-369 | the opacity of tick k moves the mixture on by one tenth |
| `SlideshowFade.UndisturbedTick` | savers/gste-slideshow.c:327-389 | one tick takes an exact mixture to the next |
| `SlideshowFade.TickShowsItsShare` | savers/gste-slideshow.c:327-389 | the picture is put, in its own size, into the middle of the window, and after tick k of a fade that no slow frame disturbs, every pixel is (1 - k/10) of what it was at the start plus k/10 of the new picture |
| `SlideshowFade.FadeEnds` | savers/gste-slideshow.c:327-389 | any fade under way ends at exactly the new picture within its remaining calls, for every frame-rate history |
| `SlideshowFade.FadeFromStart` | savers/gste-slideshow.c:143-210 | from its start a fade ends within eleven calls, with the picture in the middle of the window |
| `Slideshow.SlideshowWidget.DrawTick` | savers/gste-slideshow.c:327-389 | the draw timer in place, never dividing by zero |
| `Slideshow.SlideshowWidget.PullResults` | savers/gste-slideshow.c:423-446 | the loop empties the result queue in order and clears the id |
| `Coverage.OutsideRegion` | src/gs-window-x11.c:294-330 | the loop collects exactly the points of the earlier monitors |
| `Coverage.UpdateGeometry` | src/gs-window-x11.c:332-364 | the window's rectangle is the extents of what is left of its monitor |
| `Coverage.WindowInsideMonitor` | src/gs-window-x11.c:332-364 | a window stays on its own monitor |
| `Coverage.WindowsCoverMonitors` | src/gs-window-x11.c:294-364 | the windows together cover exactly the union of the monitors |
| `Coverage.DisjointMonitorIsFull` | src/gs-window-x11.c:332-364 | a monitor that earlier ones do not overlap is covered in full |
| `UriList.UriListParse` | src/mate-screensaver-preferences.c:884-939 | the nested loops compute the list that the line-by-line definition gives |
| `UriList.ResultsAreClean` | src/mate-screensaver-preferences.c:902-931 | for every input each result is a non-empty, trimmed, newline-free substring |
| `UriList.RoundTrip` | src/mate-screensaver-preferences.c:884-939 | printed URIs, with comments and LF or CRLF, come back in order |
| `UriList.BlankLines` | src/mate-screensaver-preferences.c:903-906 | white space in front changes nothing if and only if no comment follows it |

## Left out

- GTK, GDK, cairo and X11 calls, D-Bus marshalling and introspection: only success, failure and order of their effects are inputs.
- The grab's internals (`src/gs-grab-x11.c`) and the fades of the manager and the monitor (`src/gs-fade.c`): a grab is an input; the manager's `do_fade` is constantly FALSE.
- Windows and jobs inside the manager are values in its tables, not objects of their own; aliasing between a window and the manager is not captured. `JobHash` is the table of job objects, proved against the same walks that the manager takes on values.
- Deferred callbacks of a window that has been destroyed: a token of a window that no longer exists is dropped.
- The dialog's and the on-screen keyboard's child processes, their kill and wait, and the nested main loop of the dialog's shake.
- ConsoleKit and logind events, which add throttlers and lock requests by the same operations.
- Showing a message on a window, logout, user switching, themes other than whether they have a command, and the status message.
- The cycle timer's period: only whether it is set and what firing does. `gs_manager_set_cycle_timeout` reuses the remaining time as the repeat interval.
- That the user is still idle when the idle timer activates the saver: a return of the user is ignored while no notice is in effect.
- Memory management, and allocation failure in the conversation functions.
- Images with transparency, resizing during a fade and colour rounding: one channel over the reals, opaque images.
- Image selection and scaling in the slideshow, the other savers, the preferences dialog apart from the URI list, and the remaining password back ends.
