/** Monitors come and go while the saver is active: there is still one window per
    monitor, one job per window, and at most one dialog. */
module HotPlug {
  import opened Jobs
  import opened JobTable
  import opened ManagerModel
  import opened ManagerProofs
  import opened ManagerLifecycle

  // ----- A monitor appears -----------------------------------------------------

  lemma InsertedDistinct(s: seq<nat>, x: nat, at: nat)
    requires Distinct(s) && x !in s && at <= |s|
    ensures Distinct(s[..at] + [x] + s[at..])
    ensures forall y :: y in s[..at] + [x] + s[at..] <==> y == x || y in s
  {
  }

  /** The window list and dialogs after one more, freshly shown, window. */
  lemma AddedWindowOk(m: Manager, w: WindowId, x: Window)
    requires WindowsOk(m) && DialogOk(m.win, false) && w == m.nextWindow
    requires x.sensitive && !x.dialogUp && !x.obscured && !x.popupIdle && !x.lockWatch && !x.lockSource
    ensures w !in m.win
    ensures Listed(m.windows + [w], m.win[w := x].Keys, w + 1)
    ensures DialogOk(m.win[w := x], false)
    ensures ObscuredIn(m.win[w := x]) == ObscuredIn(m.win)
  {
  }

  lemma CreateShownIs(m: Manager, monitor: MonitorId, env: Env)
    requires m.active && m.hasJobs && m.nextWindow !in m.win
    ensures var r := CreateWindow(m, monitor, env);
            var w := m.nextWindow;
            && r == m.(win := m.win[w := NewWindow(monitor, m.lockActive).(visible := true)],
                       windows := m.windows + [w], nextWindow := w + 1,
                       table := m.table.(jobs := m.table.jobs[w := NewJob(env.spawns.CommandFor(w))]),
                       timers := r.timers)
            && r.timers.lockTimeout == m.timers.lockTimeout
            && Armed(r.timers, env.now)
  {
  }

  lemma CreateShownBase(m: Manager, monitor: MonitorId, env: Env)
    requires Base(m) && m.active && m.hasJobs && !m.dialogUp
    ensures m.nextWindow !in m.win
    ensures Base(CreateWindow(m, monitor, env))
  {
    var w := m.nextWindow;
    var x := NewWindow(monitor, m.lockActive).(visible := true);
    AddedWindowOk(m, w, x);
    CreateShownIs(m, monitor, env);
    assert w !in m.table.jobs;
    AddJobKeeps(m.table, w, env.spawns.CommandFor(w), Obscured(m));
    hide CreateWindow, TableOk, DialogOk, SignalsOk, AllQuiet, ObscuredIn, Listed;
  }

  /** A window for `monitor` joined the others. */
  predicate Joined(before: map<WindowId, Window>, after: map<WindowId, Window>, w: WindowId, monitor: MonitorId) {
    && after.Keys == before.Keys + {w} && w !in before
    && after[w].monitor == monitor
    && (forall v :: v in before ==> after[v] == before[v])
  }

  /** What a new window on a running saver changes. */
  predicate Extended(m: Manager, r: Manager, monitor: MonitorId, now: nat) {
    && r.active && r.lockActive == m.lockActive && !r.dialogUp && r.monitors == m.monitors
    && r.out == m.out && r.throttled == m.throttled && r.lockEnabled == m.lockEnabled
    && r.windows == m.windows + [m.nextWindow] && Joined(m.win, r.win, m.nextWindow, monitor)
    && TimersOk(r, now)
  }

  lemma CreateShownExtends(m: Manager, monitor: MonitorId, env: Env)
    requires m.nextWindow !in m.win && m.active && m.hasJobs && !m.dialogUp
    requires 0 <= m.timers.lockTimeout <= MAX_LOCK_TIMEOUT
    ensures Extended(m, CreateWindow(m, monitor, env), monitor, env.now)
  {
  }

  lemma CreateShownShape(m: Manager, monitor: MonitorId, env: Env)
    requires 0 <= m.timers.lockTimeout <= MAX_LOCK_TIMEOUT && m.active && !m.dialogUp
    requires Base(m) && Shape(m)
    ensures var r := CreateWindow(m, monitor, env);
            Base(r) && Shape(r) && Extended(m, r, monitor, env.now)
  {
    hide Base;
    CreateShownBase(m, monitor, env);
    CreateShownIs(m, monitor, env);
    hide CreateWindow, Armed;
    assert Shape(CreateWindow(m, monitor, env));
    CreateShownExtends(m, monitor, env);
    hide Shape, Extended;
  }

  lemma AddedMonitorMatches(m: Manager, r: Manager, monitor: MonitorId, w: WindowId)
    requires WindowPerMonitor(m) && monitor !in m.monitors && w !in m.win
    requires forall mon :: mon in r.monitors <==> mon == monitor || mon in m.monitors
    requires r.win.Keys == m.win.Keys + {w} && r.win[w].monitor == monitor
    requires forall x :: x in m.win ==> r.win[x].monitor == m.win[x].monitor
    ensures WindowPerMonitor(r)
  {
    forall mon | mon in r.monitors ensures HasWindow(r, mon) {
      if mon == monitor {
        assert r.win[w].monitor == mon;
      } else {
        assert HasWindow(m, mon);
        var x :| x in m.win && m.win[x].monitor == mon;
        assert r.win[x].monitor == mon;
      }
    }
  }

  /** The state in which the new window has been made and unlocking is asked for. */
  function Plugged(m: Manager, monitor: MonitorId, at: nat, env: Env): Manager
    requires at <= |m.monitors|
  {
    var m1 := m.(monitors := m.monitors[..at] + [monitor] + m.monitors[at..]);
    CreateWindow(PopdownAll(m1, m1.windows, env), monitor, env)
  }

  predicate Unmoved(m: Manager, r: Manager) {
    && r.active == m.active && r.lockActive == m.lockActive
    && r.throttled == m.throttled && r.lockEnabled == m.lockEnabled
    && r.out.windowIdles == m.out.windowIdles && r.out.managerIdles == m.out.managerIdles
    && (r.timers.lapsed ==> m.timers.lapsed)
  }

  lemma OtherMonitors(m: Manager, monitors: seq<MonitorId>)
    requires Base(m) && Shape(m)
    ensures Base(m.(monitors := monitors)) && Shape(m.(monitors := monitors))
  {
    hide TableOk, DialogOk, SignalsOk, AllQuiet, ObscuredIn, Listed, Covered;
  }

  /** The display has one more monitor, and a running saver one more window, on it. */
  predicate Grew(m: Manager, r: Manager, monitor: MonitorId, at: nat)
    requires at <= |m.monitors|
  {
    && r.monitors == m.monitors[..at] + [monitor] + m.monitors[at..]
    && (m.active ==>
          && r.windows == m.windows + [m.nextWindow]
          && r.win.Keys == m.win.Keys + {m.nextWindow}
          && r.win[m.nextWindow].monitor == monitor
          && (forall w :: w in m.win ==> r.win[w].monitor == m.win[w].monitor))
  }

  lemma PluggedKeeps(m: Manager, monitor: MonitorId, at: nat, env: Env)
    requires at <= |m.monitors| && monitor !in m.monitors
    requires Inv(m, env.now) && m.active
    ensures Inv(Plugged(m, monitor, at, env), env.now)
    ensures Unmoved(m, Plugged(m, monitor, at, env)) && Grew(m, Plugged(m, monitor, at, env), monitor, at)
    ensures !Plugged(m, monitor, at, env).dialogUp
  {
    hide Base, Shape, CreateWindow, PopdownAll, Distinct, WindowPerMonitor, SameShape;
    var m1 := m.(monitors := m.monitors[..at] + [monitor] + m.monitors[at..]);
    InsertedDistinct(m.monitors, monitor, at);
    OtherMonitors(m, m1.monitors);
    var m2 := PopdownAll(m1, m1.windows, env);
    var r := CreateWindow(m2, monitor, env);
    AllDialogsDown(m1, env);
    CreateShownShape(m2, monitor, env);
    PluggedTimers(m2, monitor, env);
    AddedMonitorMatches(m, r, monitor, m2.nextWindow);
  }

  lemma AllDialogsDown(m: Manager, env: Env)
    requires Base(m) && Shape(m) && m.active
    ensures var r := PopdownAll(m, m.windows, env);
            && Base(r) && Shape(r) && !r.dialogUp && r.hasJobs
            && r.active && r.lockActive == m.lockActive && r.monitors == m.monitors && r.timers == m.timers
            && r.throttled == m.throttled && r.lockEnabled == m.lockEnabled
            && r.out.windowIdles == m.out.windowIdles && r.out.managerIdles == m.out.managerIdles
            && r.windows == m.windows && r.nextWindow == m.nextWindow && r.win.Keys == m.win.Keys
            && (forall w :: w in m.win ==> r.win[w].monitor == m.win[w].monitor)
  {
    hide Base, PopdownAll;
    ListedWindows(m);
    PopdownAllKeeps(m, m.windows, env);
    NoDialogLeft(m, m.windows, env);
  }

  lemma ListedWindows(m: Manager)
    requires Base(m)
    ensures forall x :: x in m.windows ==> x in m.win
  {
  }

  lemma PluggedTimers(m: Manager, monitor: MonitorId, env: Env)
    requires Base(m) && m.active && m.hasJobs && !m.dialogUp && m.timers.lockTimeout >= 0
    ensures !CreateWindow(m, monitor, env).timers.lapsed
  {
    CreateShownBase(m, monitor, env);
    CreateShownIs(m, monitor, env);
  }

  /** Hot-plugging leaves activity and locking alone; it may queue a deactivation when the
      manager is not locked. */
  ghost predicate PluggedIn(m: Manager, r: Manager) {
    && r.active == m.active && r.lockActive == m.lockActive
    && r.throttled == m.throttled && r.lockEnabled == m.lockEnabled
    && r.out.managerIdles == m.out.managerIdles
    && (r.timers.lapsed ==> m.timers.lapsed)
    && (r.out.windowIdles == m.out.windowIdles || QueuedWhileUnlocked(m, r))
  }

  ghost predicate QueuedWhileUnlocked(m: Manager, r: Manager) {
    && m.active && !m.lockActive
    && exists w :: r.out.windowIdles == m.out.windowIdles + [Token(w, WindowNotLocked)]
  }

  /** Hot-plugging moves the dialog: any open one is taken down, the new monitor gets
      its window, and unlocking is requested afresh. */
  lemma MonitorAddedKeeps(m: Manager, monitor: MonitorId, at: nat, env: Env)
    requires Inv(m, env.now)
    ensures Inv(MonitorAdded(m, monitor, at, env), env.now)
    ensures PluggedIn(m, MonitorAdded(m, monitor, at, env))
    ensures monitor !in m.monitors && at <= |m.monitors| ==> Grew(m, MonitorAdded(m, monitor, at, env), monitor, at)
  {
    if monitor !in m.monitors && at <= |m.monitors| {
      if m.active {
        assert m.windows != [] by { assert Shape(m); }
        hide Inv, Plugged, RequestUnlock;
        PluggedKeeps(m, monitor, at, env);
        var p := Plugged(m, monitor, at, env);
        RequestUnlockKeeps(p, env, env.now);
        UnlockedTokens(p, RequestUnlock(p, env), env.now);
        StillGrown(m, p, RequestUnlock(p, env), monitor, at);
        assert MonitorAdded(m, monitor, at, env) == RequestUnlock(p, env) by { PluggedIs(m, monitor, at, env); }
      } else {
        InsertedDistinct(m.monitors, monitor, at);
        InactiveMonitors(m, m.monitors[..at] + [monitor] + m.monitors[at..], env.now);
      }
    }
  }

  lemma StillGrown(m: Manager, p: Manager, r: Manager, monitor: MonitorId, at: nat)
    requires at <= |m.monitors| && Grew(m, p, monitor, at) && SameShape(p, r)
    ensures Grew(m, r, monitor, at)
  {
  }

  lemma PluggedIs(m: Manager, monitor: MonitorId, at: nat, env: Env)
    requires monitor !in m.monitors && at <= |m.monitors| && m.windows != []
    ensures MonitorAdded(m, monitor, at, env) == RequestUnlock(Plugged(m, monitor, at, env), env)
  {
    hide RequestUnlock, CreateWindow, PopdownAll;
  }

  /** A deactivation queued by a request shows that the manager was not locked. */
  lemma UnlockedTokens(m: Manager, r: Manager, now: nat)
    requires Inv(m, now) && m.active && Requested(m, r)
    ensures r.out.windowIdles == m.out.windowIdles || QueuedWhileUnlocked(m, r)
  {
  }

  // ----- A monitor disappears --------------------------------------------------

  lemma {:induction false} WithoutMembers(s: seq<nat>, x: nat)
    ensures forall y :: y in Without(s, x) <==> y in s && y != x
  {
    if s != [] {
      WithoutMembers(s[1..], x);
    }
  }

  lemma {:induction false} WithoutDistinct(s: seq<nat>, x: nat)
    requires Distinct(s)
    ensures Distinct(Without(s, x))
  {
    if s != [] {
      assert Distinct(s[1..]);
      WithoutDistinct(s[1..], x);
      WithoutMembers(s[1..], x);
      assert s[0] !in s[1..];
    }
  }

  lemma WithoutListed(windows: seq<WindowId>, keys: set<WindowId>, next: nat, w: WindowId)
    requires Listed(windows, keys, next)
    ensures Listed(Without(windows, w), keys - {w}, next)
  {
    WithoutMembers(windows, w);
    WithoutDistinct(windows, w);
  }

  /** Removing a window whose dialog is down leaves the dialogs of the others alone. */
  lemma DroppedWindowOk(win: map<WindowId, Window>, w: WindowId, dialogUp: bool)
    requires DialogOk(win, dialogUp) && w in win && !win[w].dialogUp
    ensures DialogOk(win - {w}, dialogUp)
    ensures (win - {w}).Keys == win.Keys - {w}
  {
    if dialogUp {
      var v :| v in win && win[v].dialogUp;
      assert (win - {w})[v].dialogUp;
    } else {
      assert forall v :: v in win && win[v].dialogUp ==> SomeDialog(win);
    }
  }

  /** Stopping and dropping the window's job, before its dialog is taken down. */
  function JobDropped(m: Manager, w: WindowId): Manager {
    var t := StopFor(m.table, w);
    m.(table := t.(jobs := t.jobs - {w}))
  }

  lemma DroppedTable(t: Table, w: WindowId, obscured: set<WindowId>)
    requires TableOk(t, obscured)
    ensures var u := StopFor(t, w);
            var d := u.(jobs := u.jobs - {w});
            TableOk(d, obscured) && d.jobs.Keys == t.jobs.Keys - {w} && (AllQuiet(t) ==> AllQuiet(d))
  {
    var u := StopFor(t, w);
    StopForKeeps(t, w, obscured);
    assert AllQuiet(t) ==> AllQuiet(u);
    DropJobKeeps(u, w, obscured);
    hide TableOk, AllQuiet;
  }

  lemma JobDroppedKeeps(m: Manager, w: WindowId)
    requires Base(m) && w in m.win
    ensures Base(JobDropped(m, w))
    ensures JobDropped(m, w).table.jobs.Keys == m.table.jobs.Keys - {w}
  {
    hide TableOk, DialogOk, SignalsOk, AllQuiet, ObscuredIn, Listed, StopFor;
    DroppedTable(m.table, w, Obscured(m));
  }

  /** Active, in order, perhaps without windows: the shape while windows are removed. */
  ghost predicate Thinned(m: Manager) {
    && m.active && m.hasJobs
    && m.table.jobs.Keys == m.win.Keys
    && (forall w :: w in m.win ==> m.win[w].visible && m.win[w].lockEnabled == m.lockActive)
  }

  lemma ObscuredWithout(t: Table, win: map<WindowId, Window>, w: WindowId)
    requires TableOk(t, ObscuredIn(win))
    ensures TableOk(t, ObscuredIn(win - {w}))
  {
    ObscuredMayChange(t, ObscuredIn(win), ObscuredIn(win - {w}));
  }

  lemma RemoveWindowBase(m: Manager, w: WindowId, env: Env)
    requires Base(m) && m.active && w in m.win
    ensures var r := RemoveWindow(m, w, env);
            && Base(r)
            && r.win.Keys == m.win.Keys - {w} && r.table.jobs.Keys == m.table.jobs.Keys - {w}
            && (forall x :: x in r.win ==> SameWindow(m.win[x], r.win[x]))
            && r.monitors == m.monitors && r.hasJobs == m.hasJobs && r.timers == m.timers
            && r.active == m.active && r.lockActive == m.lockActive && Unmoved(m, r)
  {
    var m1 := JobDropped(m, w);
    JobDroppedKeeps(m, w);
    PopdownSame(m1, w, env);
    var m2 := Popdown(m1, w, env);
    var r := RemoveWindow(m, w, env);
    assert r == m2.(windows := Without(m2.windows, w), win := m2.win - {w});
    hide Popdown, RemoveWindow, TableOk, SignalsOk, ObscuredIn, AllQuiet;
    WithoutListed(m2.windows, m2.win.Keys, m2.nextWindow, w);
    DroppedWindowOk(m2.win, w, m2.dialogUp);
    ObscuredWithout(m2.table, m2.win, w);
    assert JobsCovered(r) by { WithoutMembers(m2.windows, w); }
    hide DialogOk, Listed, Covered;
  }

  lemma RemoveWindowThins(m: Manager, w: WindowId, env: Env)
    requires Base(m) && Thinned(m) && w in m.win
    ensures var r := RemoveWindow(m, w, env);
            && Base(r) && Thinned(r) && Unmoved(m, r) && r.monitors == m.monitors && r.timers == m.timers
            && r.win.Keys == m.win.Keys - {w}
            && (forall x :: x in r.win ==> r.win[x].monitor == m.win[x].monitor)
  {
    hide Base, RemoveWindow;
    RemoveWindowBase(m, w, env);
  }

  /** Walking the list removes exactly the windows of the monitor that went away. */
  lemma {:induction false} RemoveWindowsOnRemoves(m: Manager, ws: seq<WindowId>, monitor: MonitorId, env: Env)
    requires Base(m) && Thinned(m)
    ensures var r := RemoveWindowsOn(m, ws, monitor, env);
            && Base(r) && Thinned(r) && Unmoved(m, r) && r.monitors == m.monitors && r.timers == m.timers
            && (forall x :: x in r.win ==> x in m.win && r.win[x].monitor == m.win[x].monitor)
            && (forall x :: x in m.win && m.win[x].monitor != monitor ==> x in r.win)
            && (forall x :: x in r.win && x in ws ==> r.win[x].monitor != monitor)
    decreases |ws|
  {
    hide Base, RemoveWindow, Thinned;
    if ws != [] {
      var m1 := if ws[0] in m.win && m.win[ws[0]].monitor == monitor then RemoveWindow(m, ws[0], env) else m;
      if ws[0] in m.win && m.win[ws[0]].monitor == monitor {
        RemoveWindowThins(m, ws[0], env);
      }
      RemoveWindowsOnRemoves(m1, ws[1..], monitor, env);
    }
  }

  lemma RemainingMatch(m: Manager, r: Manager, monitor: MonitorId)
    requires WindowPerMonitor(m)
    requires forall mon :: mon in r.monitors <==> mon in m.monitors && mon != monitor
    requires forall x :: x in r.win ==> x in m.win && r.win[x].monitor == m.win[x].monitor
    requires forall x :: x in m.win && m.win[x].monitor != monitor ==> x in r.win
    requires forall x :: x in r.win ==> r.win[x].monitor != monitor
    ensures WindowPerMonitor(r)
  {
    forall mon | mon in r.monitors ensures HasWindow(r, mon) {
      assert HasWindow(m, mon);
      var x :| x in m.win && m.win[x].monitor == mon;
      assert r.win[x].monitor == mon;
    }
  }

  lemma {:induction false} WithoutLeavesSome(s: seq<nat>, x: nat)
    requires Distinct(s) && |s| > 1
    ensures Without(s, x) != []
  {
  }

  lemma NonemptyWindows(m: Manager)
    requires Base(m) && m.monitors != [] && WindowPerMonitor(m)
    ensures m.windows != []
  {
    assert HasWindow(m, m.monitors[0]);
    var w :| w in m.win && m.win[w].monitor == m.monitors[0];
    assert w in m.windows;
  }

  /** The monitor is gone, and with it exactly its windows (and so their jobs). */
  ghost predicate Shrank(m: Manager, r: Manager, monitor: MonitorId) {
    && r.monitors == Without(m.monitors, monitor)
    && (forall w :: w in r.win <==> w in m.win && m.win[w].monitor != monitor)
  }

  lemma UnpluggedActive(m: Manager, m1: Manager, monitor: MonitorId, env: Env)
    requires Inv(m, env.now) && m.active && m1 == m.(monitors := Without(m.monitors, monitor)) && m1.monitors != []
    ensures var r := RemoveWindowsOn(m1, m1.windows, monitor, env);
            && Base(r) && Thinned(r) && Unmoved(m, r) && r.monitors == m1.monitors && r.timers == m.timers
            && WindowPerMonitor(r) && r.windows != [] && Shrank(m, r, monitor)
  {
    hide Base, RemoveWindowsOn, Distinct;
    OtherMonitors(m, m1.monitors);
    assert Thinned(m1);
    ListedInWindows(m1);
    hide Thinned, Shape;
    var r := RemoveWindowsOn(m1, m1.windows, monitor, env);
    RemoveWindowsOnRemoves(m1, m1.windows, monitor, env);
    WithoutMembers(m.monitors, monitor);
    RemainingMatch(m, r, monitor);
    NonemptyWindows(r);
  }

  lemma ListedInWindows(m: Manager)
    requires Base(m)
    ensures forall x :: x in m.win ==> x in m.windows
  {
  }

  /** While inactive only the display's list changes. */
  lemma InactiveMonitors(m: Manager, monitors: seq<MonitorId>, now: nat)
    requires Inv(m, now) && !m.active && Distinct(monitors) && monitors != []
    ensures Inv(m.(monitors := monitors), now)
  {
  }

  /** Unplugging removes that monitor's window and job and reaps its process; a dialog on
      it is taken down and its authentication request ended. */
  lemma MonitorRemovedKeeps(m: Manager, monitor: MonitorId, env: Env)
    requires Inv(m, env.now)
    ensures Inv(MonitorRemoved(m, monitor, env), env.now)
    ensures Unmoved(m, MonitorRemoved(m, monitor, env))
    ensures monitor in m.monitors && |m.monitors| > 1 ==> Shrank(m, MonitorRemoved(m, monitor, env), monitor)
  {
    if monitor in m.monitors && |m.monitors| != 1 {
      var m1 := m.(monitors := Without(m.monitors, monitor));
      hide RemoveWindowsOn, Base, TimersOk, WindowPerMonitor, Without, Distinct;
      WithoutDistinct(m.monitors, monitor);
      WithoutLeavesSome(m.monitors, monitor);
      assert m.active || (m1.windows == [] && m1.win == map[]);
      hide MonitorsOk, Shape;
      if m.active {
        UnpluggedKeeps(m, m1, monitor, env);
      } else {
        NothingToRemove(m1, monitor, env);
        InactiveMonitors(m, m1.monitors, env.now);
      }
    }
  }

  lemma UnpluggedKeeps(m: Manager, m1: Manager, monitor: MonitorId, env: Env)
    requires Inv(m, env.now) && m.active && m1 == m.(monitors := Without(m.monitors, monitor))
    requires m1.monitors != [] && Distinct(m1.monitors)
    ensures Inv(RemoveWindowsOn(m1, m1.windows, monitor, env), env.now)
    ensures Unmoved(m, RemoveWindowsOn(m1, m1.windows, monitor, env))
    ensures Shrank(m, RemoveWindowsOn(m1, m1.windows, monitor, env), monitor)
  {
    hide RemoveWindowsOn, Base, Distinct, WindowPerMonitor, Without;
    UnpluggedActive(m, m1, monitor, env);
  }

  lemma NothingToRemove(m: Manager, monitor: MonitorId, env: Env)
    ensures RemoveWindowsOn(m, [], monitor, env) == m
  {
  }
}
