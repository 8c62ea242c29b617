/** Locking, activation, deactivation and monitor hot-plug keep the invariant. */
module ManagerLifecycle {
  import opened Options
  import opened Jobs
  import opened JobTable
  import opened ManagerModel
  import opened ManagerProofs

  // ----- Locking ---------------------------------------------------------------

  lemma LockedWindows(m: Manager, locked: bool)
    requires WindowsOk(m) && DialogOk(m.win, m.dialogUp)
    ensures var win := WithLockEnabled(m.win, m.windows, locked);
            && DialogOk(win, m.dialogUp)
            && win.Keys == m.win.Keys
            && ObscuredIn(win) == ObscuredIn(m.win)
            && (forall w :: w in m.win ==> win[w] == m.win[w].(lockEnabled := locked))
  {
    var win := WithLockEnabled(m.win, m.windows, locked);
    assert forall w :: w in m.win ==> win[w] == m.win[w].(lockEnabled := locked);
    hide Listed, WithLockEnabled;
    if m.dialogUp {
      var v :| v in m.win && m.win[v].dialogUp;
      assert win[v].dialogUp;
    } else {
      assert forall v :: v in m.win && m.win[v].dialogUp ==> SomeDialog(m.win);
    }
  }

  /** Locking reaches every window, and an active saver may always be locked. */
  lemma LockKeeps(m: Manager, now: nat)
    requires Inv(m, now) && m.active
    ensures var r := SetLockActive(m, true);
            Inv(r, now) && r.active && r.lockActive
            && r == m.(lockActive := true, win := r.win) && r.win.Keys == m.win.Keys
  {
    if !m.lockActive {
      LockedWindows(m, true);
      var r := SetLockActive(m, true);
      hide TableOk, DialogOk, SignalsOk, AllQuiet, ObscuredIn, Listed, Covered, WithLockEnabled;
      assert Base(r);
      hide Base;
      SameMonitors(m, r);
    }
  }

  /** Before an activation there are no windows, so the flag moves alone. */
  lemma LockBeforeActivation(m: Manager, locked: bool)
    requires m.win == map[]
    ensures SetLockActive(m, locked) == m.(lockActive := locked)
  {
    assert WithLockEnabled(m.win, m.windows, locked) == map[];
  }

  /** Only the timers move. */
  lemma TimersStep(m: Manager, timers: Timers, now: nat)
    requires Inv(m, now)
    requires TimersOk(m.(timers := timers), now)
    requires !m.active ==> timers.lockTimer == None && !timers.cycleTimer
    ensures Inv(m.(timers := timers), now)
  {
    var r := m.(timers := timers);
    hide TableOk, DialogOk, SignalsOk, AllQuiet, ObscuredIn, Listed, Covered, TimersOk;
    assert Base(r) && Shape(r);
    hide Base, Shape;
    if m.active {
      SameMonitors(m, r);
    }
  }

  /** The deadline of the current activation has passed. */
  predicate Expired(t: Timers, now: nat) {
    1000 * t.activateTime + t.lockTimeout <= now
  }

  lemma ActivateLockTimeoutKeeps(m: Manager, now: nat)
    requires Inv(m, now) && m.active && Expired(m.timers, now)
    ensures var r := ActivateLockTimeout(m);
            && Inv(r, now)
            && r == m.(lockActive := m.lockActive || m.lockEnabled, win := r.win, timers := r.timers)
            && r.timers == m.timers.(lockTimer := None, lapsed := !m.lockEnabled)
  {
    hide Base, Shape, MonitorsOk;
    LockKeeps(m, now);
    var m1 := if m.lockEnabled then SetLockActive(m, true) else m;
    TimersStep(m1, m1.timers.(lockTimer := None, lapsed := !m.lockEnabled), now);
  }

  /** A due timer is used up: it locks if locking is enabled, and otherwise the lapse is
      recorded.  A timer that is not due, or not set, does nothing. */
  lemma LockTimerFiresKeeps(m: Manager, now: nat)
    requires Inv(m, now)
    ensures var r := LockTimerFires(m, now);
            && Inv(r, now) && r == m.(lockActive := r.lockActive, win := r.win, timers := r.timers)
            && (m.lockActive ==> r.lockActive)
            && (r.timers.lapsed && !m.timers.lapsed ==> !m.lockEnabled)
            && (if m.timers.lockTimer.Some? && m.timers.lockTimer.value <= now then
                  && r.timers == m.timers.(lockTimer := None, lapsed := !m.lockEnabled)
                  && (m.lockEnabled ==> r.lockActive && forall w :: w in r.win ==> r.win[w].lockEnabled)
                else r == m)
  {
    if m.timers.lockTimer.Some? && m.timers.lockTimer.value <= now {
      assert m.active by { assert Shape(m); }
      var r := LockTimerFires(m, now);
      if m.lockActive {
        LockedTimerKeeps(m, now);
      } else {
        ActivateLockTimeoutKeeps(m, now);
      }
      assert Inv(r, now) && Shape(r);
    }
  }

  /** Once locked, the timer may still be pending; it then changes nothing but itself. */
  lemma LockedTimerKeeps(m: Manager, now: nat)
    requires Inv(m, now) && m.active && m.lockActive
    ensures var r := ActivateLockTimeout(m);
            Inv(r, now) && r == m.(timers := m.timers.(lockTimer := None, lapsed := !m.lockEnabled))
  {
    hide Base, Shape, MonitorsOk;
    TimersStep(m, m.timers.(lockTimer := None, lapsed := !m.lockEnabled), now);
  }

  /** What setting the timeout may change. */
  predicate Retimed(m: Manager, r: Manager, lockTimeout: int) {
    && r == m.(lockActive := r.lockActive, win := r.win, timers := r.timers)
    && (m.lockActive ==> r.lockActive) && r.timers.lockTimeout == lockTimeout
    && (!m.active ==> r.lockActive == m.lockActive)
    && (r.timers.lapsed && !m.timers.lapsed ==> !m.lockEnabled)
  }

  lemma AlreadyElapsed(m: Manager, lockTimeout: int, now: nat)
    requires Inv(m, now) && 0 <= lockTimeout <= MAX_LOCK_TIMEOUT && m.active && !m.lockActive
    requires Elapsed(m, now) >= lockTimeout
    ensures var r := ActivateLockTimeout(m.(timers := m.timers.(lockTimeout := lockTimeout)));
            Inv(r, now) && Retimed(m, r, lockTimeout)
  {
    hide Base, Shape, MonitorsOk;
    var t1 := m.timers.(lockTimeout := lockTimeout);
    var t2 := t1.(lockTimer := None, lapsed := true);
    TimersStep(m, t2, now);
    hide Inv;
    ActivateLockTimeoutKeeps(m.(timers := t2), now);
    assert ActivateLockTimeout(m.(timers := t1)) == ActivateLockTimeout(m.(timers := t2));
  }

  /** Changing the timeout re-arms the timer for the same activation: the new due time
      is again within a second of activation time plus timeout, or it has passed. */
  lemma SetLockTimeoutKeeps(m: Manager, lockTimeout: int, now: nat)
    requires Inv(m, now) && 0 <= lockTimeout <= MAX_LOCK_TIMEOUT
    ensures Inv(SetLockTimeout(m, lockTimeout, now), now)
    ensures Retimed(m, SetLockTimeout(m, lockTimeout, now), lockTimeout)
  {
    assert Shape(m);
    assert !m.active ==> m.timers.lockTimer == None && !m.timers.cycleTimer;
    hide Base, Shape, MonitorsOk, ActivateLockTimeout;
    if m.timers.lockTimeout != lockTimeout {
      var t1 := m.timers.(lockTimeout := lockTimeout);
      if m.active && !m.lockActive {
        if Elapsed(m, now) >= lockTimeout {
          AlreadyElapsed(m, lockTimeout, now);
        } else {
          TimersStep(m, t1.(lockTimer := Some(now + lockTimeout - Elapsed(m, now)), lapsed := false), now);
        }
      } else {
        TimersStep(m, t1, now);
      }
    }
  }

  /** The interval handed to the main loop is a non-negative 32-bit number. */
  lemma LockIntervalFits(m: Manager, lockTimeout: int, now: nat)
    requires Inv(m, now) && m.active && 0 <= lockTimeout <= MAX_LOCK_TIMEOUT && Elapsed(m, now) < lockTimeout
    ensures 0 < lockTimeout - Elapsed(m, now) < 0x1_0000_0000
  {
    hide Base, Shape, MonitorsOk;
    assert m.timers.activateTime <= now / 1000;
  }

  lemma SetCycleTimeoutKeeps(m: Manager, cycleTimeout: int, now: nat)
    requires Inv(m, now)
    ensures Inv(SetCycleTimeout(m, cycleTimeout), now)
  {
    if m.timers.cycleTimeout != cycleTimeout {
      TimersStep(m, SetCycleTimeout(m, cycleTimeout).timers, now);
    }
  }

  lemma LockEnabledKeeps(m: Manager, enabled: bool, now: nat)
    requires Inv(m, now)
    ensures Inv(SetLockEnabled(m, enabled), now)
  {
    var r := SetLockEnabled(m, enabled);
    hide TableOk, DialogOk, SignalsOk, AllQuiet, ObscuredIn, Listed, Covered;
    assert Base(r) && SameShape(m, r);
    hide Base, Shape, MonitorsOk;
    ShapeKept(m, r, now);
  }

  lemma TimePasses(m: Manager, now: nat, later: nat)
    requires Inv(m, now) && now <= later
    ensures Inv(m, later)
  {
    hide Base, Shape, MonitorsOk;
  }

  /** Real-time bound: once a full second has passed after activation time plus timeout
      and no due timer is waiting to be dispatched, the screen is locked, unless the
      timeout ran out while locking was disabled. */
  lemma LockedByDeadline(m: Manager, now: nat)
    requires Inv(m, now) && m.active && !m.timers.lapsed
    requires now >= 1000 * m.timers.activateTime + m.timers.lockTimeout + 999
    requires m.timers.lockTimer == None || m.timers.lockTimer.value > now
    ensures m.lockActive && forall w :: w in m.win ==> m.win[w].lockEnabled
  {
    hide Base, MonitorsOk;
  }

  // ----- Deactivation ----------------------------------------------------------

  /** The authentication request has ended if it was open and is not open any more. */
  predicate EndsRequest(m: Manager, r: Manager) {
    r.out.signals == m.out.signals + (if m.dialogUp && !r.dialogUp then [RequestEnd] else [])
  }

  lemma PopdownEndsRequest(m: Manager, w: WindowId, env: Env)
    requires Base(m) && w in m.win && m.active
    ensures EndsRequest(m, Popdown(m, w, env)) && (Popdown(m, w, env).dialogUp ==> m.dialogUp)
  {
    PopdownSame(m, w, env);
    assert m.win[w].dialogUp ==> SomeDialog(m.win);
    assert DialogOk(m.win, m.dialogUp);
    hide Base, Popdown, DialogOk, SameShape;
  }

  /** Destroying the windows one after the other: every dialog is taken down. */
  lemma {:induction false} PopdownAllKeeps(m: Manager, ws: seq<WindowId>, env: Env)
    requires Base(m) && m.active
    requires forall w :: w in ws ==> w in m.win
    ensures var r := PopdownAll(m, ws, env);
            && Base(r) && SameShape(m, r) && r.throttled == m.throttled && r.lockEnabled == m.lockEnabled
            && r.nextWindow == m.nextWindow
            && r.out.windowIdles == m.out.windowIdles && r.out.managerIdles == m.out.managerIdles
            && (forall w :: w in m.win && (w in ws || !m.win[w].dialogUp) ==> !r.win[w].dialogUp)
            && (r.dialogUp ==> m.dialogUp) && EndsRequest(m, r)
    decreases |ws|
  {
    hide Base, Popdown;
    if ws == [] {
      SameIsSame(m);
    } else {
      PopdownSame(m, ws[0], env);
      var m1 := Popdown(m, ws[0], env);
      PopdownEndsRequest(m, ws[0], env);
      PopdownAllKeeps(m1, ws[1..], env);
      SameSame(m, m1, PopdownAll(m, ws, env));
      hide SameShape;
    }
  }

  /** Destroying the windows takes every dialog down and ends its authentication request. */
  lemma NoDialogLeft(m: Manager, ws: seq<WindowId>, env: Env)
    requires Base(m) && m.active && ws == m.windows
    ensures var r := PopdownAll(m, ws, env);
            !r.dialogUp && !SomeDialog(r.win) && SignalsOk(r.out.signals, false)
  {
    PopdownAllKeeps(m, ws, env);
    var r := PopdownAll(m, ws, env);
    hide TableOk, SignalsOk, AllQuiet, PopdownAll;
    assert forall w :: w in r.win ==> !r.win[w].dialogUp;
    assert !SomeDialog(r.win);
  }

  /** The job table is emptied and every child is reaped. */
  lemma StopJobsKeeps(m: Manager, env: Env)
    requires Base(m) && m.hasJobs
    ensures var r := StopJobs(m, env);
            && Base(r)
            && r == m.(hasJobs := false, table := Table(map[], Kernel(map[], false)))
  {
    var c := WalkOf(m, env);
    StopAllLeavesNone(m.table, JobOrder(m, env), c);
    var r := StopJobs(m, env);
    assert TableOk(Table(map[], Kernel(map[], false)), Obscured(m));
    assert AllQuiet(Table(map[], Kernel(map[], false)));
    hide TableOk, DialogOk, SignalsOk, AllQuiet, ObscuredIn, Listed;
  }

  /** What is left once the jobs are stopped and the windows destroyed. */
  lemma TornDown(m: Manager, env: Env)
    requires Base(m) && m.active && m.hasJobs
    ensures var r := DestroyWindows(StopJobs(m, env), env);
            && Base(r) && !r.dialogUp
            && r == m.(windows := [], win := map[], hasJobs := false, table := Table(map[], Kernel(map[], false)),
                       dialogUp := false, out := m.out.(signals := m.out.signals + (if m.dialogUp then [RequestEnd] else [])))
  {
    var m2 := StopJobs(m, env);
    var m3 := PopdownAll(m2, m2.windows, env);
    hide TableOk, DialogOk, SignalsOk, ObscuredIn, PopdownAll, StopJobs;
    StopJobsKeeps(m, env);
    PopdownAllKeeps(m2, m2.windows, env);
    NoDialogLeft(m2, m2.windows, env);
    assert m3.table.jobs.Keys == {} && m3.table.kernel == Kernel(map[], false) by { NoChildren(m3); }
    assert m3.table.jobs == map[];
    EmptyTableOk(m3, DestroyWindows(m2, env));
  }

  lemma NoChildren(m: Manager)
    requires Base(m) && m.table.jobs.Keys == {}
    ensures m.table.kernel == Kernel(map[], false)
  {
    assert forall p :: p in m.table.kernel.children ==> Held(m.table, p);
    assert m.table.kernel.children == map[];
  }

  /** The state after a successful deactivation. */
  predicate Torn(m: Manager, r: Manager) {
    && r == m.(windows := [], win := map[], hasJobs := false, table := Table(map[], Kernel(map[], false)),
               active := false, lockActive := false, dialogUp := false,
               timers := m.timers.(lockTimer := None, cycleTimer := false, activateTime := 0, lapsed := false),
               out := m.out.(signals := m.out.signals + (if m.dialogUp then [RequestEnd] else [])))
  }

  lemma DeactivateTears(m: Manager, env: Env)
    requires Base(m) && m.active && m.hasJobs
    ensures var r := Deactivate(m, env);
            r.ok && Base(r.m) && Torn(m, r.m)
  {
    var m1 := m.(timers := m.timers.(lockTimer := None, cycleTimer := false));
    assert Base(m1) by { hide TableOk, DialogOk, SignalsOk, AllQuiet, ObscuredIn, Listed, Covered; }
    hide TableOk, SignalsOk, ObscuredIn, DestroyWindows, StopJobs, DialogOk, AllQuiet, Listed, Covered;
    TornDown(m1, env);
    EmptyTableOk(DestroyWindows(StopJobs(m1, env), env), Deactivate(m, env).m);
  }

  /** Deactivation leaves nothing: no window, job, child process, timer or dialog, and
      an open authentication request has been ended. */
  lemma DeactivateKeeps(m: Manager, env: Env, now: nat)
    requires Inv(m, now)
    ensures var r := Deactivate(m, env);
            && Inv(r.m, now)
            && r.ok == m.active
            && (if r.ok then Torn(m, r.m) else r.m == m)
  {
    hide Base, Distinct, WindowPerMonitor;
    if m.active {
      DeactivateTears(m, env);
      hide Deactivate;
    }
  }

  lemma EmptyTableOk(m: Manager, r: Manager)
    requires SignalsOk(m.out.signals, false) && r.out.signals == m.out.signals
    requires r.table == Table(map[], Kernel(map[], false))
    requires r.windows == [] && r.win == map[] && !r.dialogUp && !r.hasJobs
    ensures Base(r)
  {
  }

  // ----- Activation ------------------------------------------------------------

  /** Windows as created, before they are shown. */
  ghost predicate Unshown(m: Manager, mons: seq<MonitorId>) {
    && WindowsOk(m)
    && |m.windows| == |mons|
    && (forall i :: 0 <= i < |mons| ==>
          m.windows[i] in m.win && m.win[m.windows[i]] == NewWindow(mons[i], m.lockActive))
  }

  lemma {:induction false} CreateWindowsUnshown(m: Manager, before: seq<MonitorId>, mons: seq<MonitorId>, env: Env)
    requires !m.active && Unshown(m, before)
    ensures var r := CreateWindows(m, mons, env);
            && Unshown(r, before + mons)
            && r == m.(win := r.win, windows := r.windows, nextWindow := r.nextWindow)
    decreases |mons|
  {
    if mons == [] {
      assert before + mons == before;
    } else {
      var m1 := CreateWindow(m, mons[0], env);
      CreatedUnshown(m, before, mons[0], env);
      CreateWindowsUnshown(m1, before + [mons[0]], mons[1..], env);
      assert before + [mons[0]] + mons[1..] == before + mons;
    }
  }

  lemma CreatedUnshown(m: Manager, before: seq<MonitorId>, mon: MonitorId, env: Env)
    requires !m.active && Unshown(m, before)
    ensures Unshown(CreateWindow(m, mon, env), before + [mon])
  {
  }

  /** The timers after a window has been shown at `now`. */
  predicate Armed(t: Timers, now: nat) {
    t.lockTimeout >= 0 ==>
      t.activateTime == now / 1000 && t.lockTimer == Some(now + t.lockTimeout) && !t.lapsed
  }

  ghost predicate OnlyNewJobs(t: Table) {
    && t.kernel == Kernel(map[], false)
    && (forall w :: w in t.jobs ==> t.jobs[w] == NewJob(t.jobs[w].hasCommand))
  }

  predicate Shown(before: map<WindowId, Window>, after: map<WindowId, Window>, ws: seq<WindowId>) {
    && after.Keys == before.Keys
    && (forall w :: w in before ==> after[w] == before[w].(visible := before[w].visible || w in ws))
  }

  /** The same manager, but for windows shown, jobs added and timers set. */
  ghost predicate Showed(m: Manager, r: Manager, ws: seq<WindowId>) {
    && r == m.(win := r.win, table := r.table, timers := r.timers)
    && Shown(m.win, r.win, ws)
    && OnlyNewJobs(r.table)
    && (forall w :: w in r.table.jobs <==> w in m.table.jobs || w in ws)
    && r.timers.lockTimeout == m.timers.lockTimeout && r.timers.cycleTimeout == m.timers.cycleTimeout
  }

  lemma ShowWindowShows(m: Manager, w: WindowId, env: Env)
    requires m.hasJobs && w in m.win && OnlyNewJobs(m.table)
    ensures Showed(m, ShowWindow(m, w, env), [w]) && Armed(ShowWindow(m, w, env).timers, env.now)
  {
  }

  lemma ShowedOn(m: Manager, m1: Manager, r: Manager, ws: seq<WindowId>)
    requires ws != [] && Showed(m, m1, [ws[0]]) && Showed(m1, r, ws[1..])
    ensures Showed(m, r, ws)
  {
  }

  lemma ShowedSelf(m: Manager)
    requires OnlyNewJobs(m.table)
    ensures Showed(m, m, [])
  {
  }

  lemma {:induction false} ShowWindowsShows(m: Manager, ws: seq<WindowId>, env: Env)
    requires m.hasJobs && OnlyNewJobs(m.table)
    requires forall w :: w in ws ==> w in m.win
    ensures var r := ShowWindows(m, ws, env);
            && Showed(m, r, ws)
            && (ws != [] || Armed(m.timers, env.now) ==> Armed(r.timers, env.now))
    decreases |ws|
  {
    if ws == [] {
      ShowedSelf(m);
    } else {
      var m1 := ShowWindow(m, ws[0], env);
      ShowWindowShows(m, ws[0], env);
      assert m1.hasJobs && m1.win.Keys == m.win.Keys && OnlyNewJobs(m1.table);
      hide Armed, ShowWindow, OnlyNewJobs, Showed;
      ShowWindowsShows(m1, ws[1..], env);
      ShowedOn(m, m1, ShowWindows(m, ws, env), ws);
    }
  }

  lemma NewJobsOk(t: Table, obscured: set<WindowId>)
    requires OnlyNewJobs(t)
    ensures TableOk(t, obscured) && AllQuiet(t)
  {
  }

  lemma ArmedInTime(t: Timers, now: nat)
    requires Armed(t, now) && t.lockTimeout >= 0
    ensures DeadlineOk(t, now) && 1000 * t.activateTime <= now && !t.lapsed
  {
  }

  /** Inactive and in order, except that the lock flag may already be set: the monitor
      sets it before it activates. */
  ghost predicate Ready(m: Manager, now: nat) {
    !m.active && Inv(m.(lockActive := false), now)
  }

  lemma IndexOf(m: Manager, w: WindowId) returns (i: nat)
    requires Unshown(m, m.monitors) && w in m.win
    ensures i < |m.monitors| == |m.windows| && m.windows[i] == w && m.win[w].monitor == m.monitors[i]
  {
    assert w in m.windows;
    i :| 0 <= i < |m.windows| && m.windows[i] == w;
  }

  /** Freshly created windows stand one to one with the monitors. */
  lemma UnshownMatches(m: Manager)
    requires Unshown(m, m.monitors) && Distinct(m.monitors)
    ensures WindowPerMonitor(m)
  {
    forall w | w in m.win ensures m.win[w].monitor in m.monitors {
      var i := IndexOf(m, w);
    }
    forall v, w | v in m.win && w in m.win && m.win[v].monitor == m.win[w].monitor ensures v == w {
      var i := IndexOf(m, v);
      var j := IndexOf(m, w);
    }
    forall mon | mon in m.monitors ensures HasWindow(m, mon) {
      var i :| 0 <= i < |m.monitors| && m.monitors[i] == mon;
      assert m.win[m.windows[i]].monitor == mon;
    }
  }

  lemma UnshownWindowsOk(m: Manager, r: Manager)
    requires Unshown(m, m.monitors) && Shown(m.win, r.win, m.windows) && r.windows == m.windows
    requires r.nextWindow == m.nextWindow && r.lockActive == m.lockActive
    ensures WindowsOk(r) && DialogOk(r.win, false) && ObscuredIn(r.win) == {}
    ensures forall w :: w in r.win ==> r.win[w].visible && r.win[w].lockEnabled == r.lockActive
  {
  }

  predicate Started(m: Manager, r: Manager) {
    && r.active
    && r.lockActive == m.lockActive && r.lockEnabled == m.lockEnabled && r.throttled == m.throttled
    && r.monitors == m.monitors && r.out == m.out && !r.dialogUp
    && !r.timers.lapsed && r.timers.lockTimeout == m.timers.lockTimeout
  }

  /** Activation: one shown window and one idle job per monitor, the lock timer armed,
      every window as locked as the manager. */
  lemma ActivateKeeps(m: Manager, env: Env)
    requires Ready(m, env.now)
    ensures var r := Activate(m, env);
            && r.ok == env.grab
            && (!r.ok ==> r.m == m)
            && (r.ok ==> Inv(r.m, env.now) && Started(m, r.m))
  {
    if env.grab {
      hide TableOk, DialogOk, SignalsOk, AllQuiet, ObscuredIn;
      assert Unshown(m, []);
      CreateWindowsUnshown(m, [], m.monitors, env);
      assert [] + m.monitors == m.monitors;
      var m1 := CreateWindows(m, m.monitors, env);
      var m2 := m1.(hasJobs := true, table := m1.table.(jobs := map[]), active := true);
      hide CreateWindows;
      ActivateShows(m1, m2, env);
    }
  }

  lemma ActivateShows(m1: Manager, m2: Manager, env: Env)
    requires Unshown(m1, m1.monitors) && Distinct(m1.monitors) && m1.monitors != []
    requires !m1.dialogUp && SignalsOk(m1.out.signals, false)
    requires 0 <= m1.timers.lockTimeout <= MAX_LOCK_TIMEOUT
    requires m1.table == Table(map[], Kernel(map[], false))
    requires m2 == m1.(hasJobs := true, table := m1.table.(jobs := map[]), active := true)
    ensures var r := ShowWindows(m2, m2.windows, env);
            && Inv(r, env.now)
            && r == m2.(win := r.win, table := r.table, timers := r.timers)
            && !r.timers.lapsed && r.timers.lockTimeout == m2.timers.lockTimeout
  {
    var r := ShowWindows(m2, m2.windows, env);
    hide ShowWindows, TableOk, DialogOk, SignalsOk, AllQuiet, ObscuredIn, OnlyNewJobs, Unshown, Distinct,
      WindowPerMonitor, Armed, DeadlineOk, Shown, Listed;
    ShownParts(m1, m2, env);
    UnshownWindowsOk(m1, r);
    NewJobsOk(r.table, Obscured(r));
    ArmedInTime(r.timers, env.now);
  }

  lemma ShownParts(m1: Manager, m2: Manager, env: Env)
    requires Unshown(m1, m1.monitors) && Distinct(m1.monitors) && m1.monitors != []
    requires m1.table == Table(map[], Kernel(map[], false))
    requires m2 == m1.(hasJobs := true, table := m1.table.(jobs := map[]), active := true)
    ensures var r := ShowWindows(m2, m2.windows, env);
            && r == m2.(win := r.win, table := r.table, timers := r.timers)
            && Shown(m1.win, r.win, m1.windows)
            && OnlyNewJobs(r.table) && r.table.jobs.Keys == r.win.Keys && r.windows != []
            && Armed(r.timers, env.now) && r.timers.lockTimeout == m2.timers.lockTimeout
            && WindowPerMonitor(r)
            && Covered(r.table.jobs.Keys, r.windows)
  {
    var r := ShowWindows(m2, m2.windows, env);
    assert WindowsOk(m2) && m2.windows != [];
    hide ShowWindows, OnlyNewJobs, Unshown, Distinct, WindowPerMonitor, Armed;
    NoJobsYet(m2.table);
    ShowWindowsShows(m2, m2.windows, env);
    assert r.table.jobs.Keys == r.win.Keys;
    UnshownMatches(m1);
    SameMonitors(m1, r);
  }

  lemma NoJobsYet(t: Table)
    requires t == Table(map[], Kernel(map[], false))
    ensures OnlyNewJobs(t)
  {
  }
}
