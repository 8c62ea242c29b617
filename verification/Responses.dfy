/** The response to each event, said independently of the functions that compute it, in
    every state of every run. */
module Responses {
  import opened Options
  import opened Jobs
  import opened JobTable
  import opened ManagerModel
  import opened ManagerProofs
  import opened HotPlug
  import opened ManagerEffects
  import opened JobEffects
  import opened ScreensaverModel
  import opened ScreensaverProofs
  import opened ScreensaverRuns
  import opened ScreensaverEffects

  // ----- Preferences and timers ------------------------------------------------------

  /** The timers of a running saver follow the new preferences: it is locked at once exactly
      if it may be and the new timeout has passed already. */
  predicate TimersFollow(m: Manager, r: Manager, now: nat) {
    var t, u := m.timers, r.timers;
    && r == m.(lockEnabled := r.lockEnabled, lockActive := r.lockActive, win := r.win, timers := r.timers)
    && u.activateTime == t.activateTime
    && (u.cycleTimer <==> t.cycleTimer || (m.active && u.cycleTimeout != t.cycleTimeout))
    && (r.lockActive <==>
          || m.lockActive
          || (m.active && r.lockEnabled && u.lockTimeout != t.lockTimeout && 1000 * (now / 1000 - t.activateTime) >= u.lockTimeout))
  }

  /** The preferences are stored, and only the manager's locking follows them at once. */
  predicate PrefsTaken(s: Saver, p: Prefs, r: Saver) {
    && PrefsStored(p, r) && TimersFollow(s.m, r.m, s.now)
    && r == s.(m := r.m, l := s.l.(activationEnabled := p.idleActivation), lockDisabled := p.lockDisabled)
  }

  lemma TimeoutDoes(m: Manager, timeout: int, now: nat)
    requires timeout >= 0
    ensures var r := SetLockTimeout(m, timeout, now);
            && r == m.(lockActive := r.lockActive, win := r.win, timers := r.timers)
            && r.timers.activateTime == m.timers.activateTime && r.timers.cycleTimer == m.timers.cycleTimer
            && r.timers.cycleTimeout == m.timers.cycleTimeout && r.timers.lockTimeout == timeout
            && r.lockActive == (m.lockActive || (m.active && m.lockEnabled && timeout != m.timers.lockTimeout
                                                 && 1000 * (now / 1000 - m.timers.activateTime) >= timeout))
  {
    hide WithLockEnabled;
  }

  lemma TimersDo(m: Manager, p: Prefs, now: nat)
    ensures TimersFollow(m, PrefsManager(m, p, now), now)
  {
    hide SetLockTimeout;
    var m1 := SetLockEnabled(m, p.lockEnabled && !p.lockDisabled);
    TimeoutDoes(m1, Clamp(0, p.lockMinutes, 480) * 60000, now);
  }

  lemma PrefsDo(s: Saver, p: Prefs)
    requires SaverInv(s)
    ensures PrefsTaken(s, p, UpdateFromPrefs(s, p))
  {
    PrefsArrive(s, p);
    TimersDo(s.m, p, s.now);
    assert s.w.enabled && s.w.active == !s.m.active;
    assert UpdateFromPrefs(s, p).m == PrefsManager(s.m, p, s.now);
    hide SaverInv, PrefsStored, PrefsManager, SetLockTimeout, SetLockEnabled, SetCycleTimeout, Clamp;
    assert TimersFollow(s.m, UpdateFromPrefs(s, p).m, s.now);
  }

  /** A due timer locks every window if locking is enabled, and is used up in any case. */
  predicate LockTimerTaken(m: Manager, r: Manager, now: nat) {
    if m.timers.lockTimer.Some? && m.timers.lockTimer.value <= now then
      && r == m.(lockActive := m.lockActive || m.lockEnabled, win := r.win,
                 timers := m.timers.(lockTimer := None, lapsed := !m.lockEnabled))
      && r.win.Keys == m.win.Keys
      && (forall w :: w in m.win ==> r.win[w] == m.win[w].(lockEnabled := m.lockActive || m.lockEnabled))
    else r == m
  }

  lemma LockedAlready(m: Manager, now: nat)
    requires Inv(m, now) && m.timers.lockTimer.Some?
    ensures m.active && forall w :: w in m.win ==> m.win[w] == m.win[w].(lockEnabled := m.lockActive)
  {
    assert Shape(m);
  }

  lemma LockTimerDoes(m: Manager, now: nat)
    requires Inv(m, now)
    ensures LockTimerTaken(m, LockTimerFires(m, now), now)
  {
    hide Inv, SetLockActive;
    if m.timers.lockTimer.Some? && m.timers.lockTimer.value <= now {
      LockedAlready(m, now);
      if m.lockEnabled {
        LocksRunning(m, now);
      }
    }
  }

  // ----- Windows and monitors --------------------------------------------------------

  ghost predicate PluggedResponse(m: Manager, monitor: MonitorId, at: nat, r: Manager, env: Env) {
    if monitor in m.monitors || at > |m.monitors| then r == m
    else if m.active then PlugTaken(m, r, monitor, at, env) && r.dialogUp == m.lockActive
    else r == m.(monitors := m.monitors[..at] + [monitor] + m.monitors[at..])
  }

  lemma PluggedDoes(m: Manager, monitor: MonitorId, at: nat, env: Env)
    requires Inv(m, env.now)
    ensures PluggedResponse(m, monitor, at, MonitorAdded(m, monitor, at, env), env)
  {
    assert !m.active ==> m.windows == [] by { assert Shape(m); }
    hide Inv, PlugTaken, CreateWindow, PopdownAll, RequestUnlock;
    if monitor !in m.monitors && at <= |m.monitors| && m.active {
      PlugAsks(m, monitor, at, env);
    }
  }

  ghost predicate UnpluggedResponse(m: Manager, monitor: MonitorId, r: Manager) {
    if monitor !in m.monitors || |m.monitors| == 1 then r == m
    else
      && Unmoved(m, r) && Shrank(m, r, monitor) && ProcessesKept(m, r)
      && (forall x :: x in r.monitors <==> x in m.monitors && x != monitor)
  }

  lemma UnpluggedDoes(m: Manager, monitor: MonitorId, env: Env)
    requires Inv(m, env.now)
    ensures UnpluggedResponse(m, monitor, MonitorRemoved(m, monitor, env))
  {
    hide Inv, RemoveWindowsOn, Without, ProcessesKept;
    MonitorRemovedKeeps(m, monitor, env);
    WithoutMembers(m.monitors, monitor);
    UnpluggedProcesses(m, monitor, env);
  }

  lemma UnpluggedProcesses(m: Manager, monitor: MonitorId, env: Env)
    requires Inv(m, env.now)
    ensures ProcessesKept(m, MonitorRemoved(m, monitor, env))
  {
    var m1 := m.(monitors := Without(m.monitors, monitor));
    InvParts(m, env.now);
    hide Inv, Base, RemoveWindowsOn, Without;
    if m.active {
      OtherMonitors(m, m1.monitors);
      RemovalsProcesses(m1, m1.windows, monitor, env);
    }
  }

  ghost predicate MappedResponse(m: Manager, w: WindowId, r: Manager, env: Env) {
    if w !in m.win then r == m else w in m.table.jobs && SaverStarted(m, r, w, env)
  }

  lemma MappedDoes(m: Manager, w: WindowId, env: Env, now: nat)
    requires Inv(m, now)
    ensures MappedResponse(m, w, MapEvent(m, w, env), env)
  {
    if w in m.win {
      assert w in m.table.jobs by { assert Shape(m); }
      hide Inv, SaverStarted, MapEvent;
      MapStarts(m, w, env);
    } else {
      hide Inv;
    }
  }

  /** Spawned, the dialog is watched; otherwise nothing is pending any more. */
  predicate PopupResponse(m: Manager, w: WindowId, spawned: bool, r: Manager) {
    if w !in m.win || !m.win[w].popupIdle then r == m
    else
      && r == m.(win := r.win) && r.win.Keys == m.win.Keys
      && (forall x :: x in m.win && x != w ==> r.win[x] == m.win[x])
      && !r.win[w].popupIdle && r.win[w].dialogUp == m.win[w].dialogUp
      && (spawned ==> r.win[w].lockWatch && r.win[w].lockSource)
      && (!spawned ==> r.win[w] == m.win[w].(popupIdle := false))
  }

  /** Exactly one token leaves the window's queue; a window that still exists passes it on. */
  predicate WindowIdleResponse(m: Manager, i: nat, r: Manager) {
    if i >= |m.out.windowIdles| then r == m
    else
      var t := m.out.windowIdles[i];
      r == m.(out := m.out.(windowIdles := m.out.windowIdles[..i] + m.out.windowIdles[i + 1..],
                            managerIdles := m.out.managerIdles + (if t.window in m.win then [t] else [])))
  }

  /** The saver is deactivated, whatever it was locked or showing. */
  predicate ManagerIdleResponse(s: Saver, i: nat, r: Saver) {
    if i >= |s.m.out.managerIdles| then r == s
    else
      var s1 := s.(m := s.m.(out := s.m.out.(managerIdles := s.m.out.managerIdles[..i] + s.m.out.managerIdles[i + 1..])));
      if s.m.active then Slept(s1, r) else r == s1
  }

  lemma ManagerIdleDoes(s: Saver, i: nat, t: Saver, env: Env)
    requires i < |s.m.out.managerIdles|
    requires t == s.(m := s.m.(out := s.m.out.(managerIdles := RemoveAt(s.m.out.managerIdles, i))))
    requires SaverInv(s) && env.now == s.now
    ensures ManagerIdleResponse(s, i, ListenerSetActive(t, false, env).s)
  {
    TokenRemovedKeeps(s.m, i, s.now);
    assert SaverInv(t) by { hide Inv, ListenerOk, RemoveAt; }
    hide SaverInv, ListenerSetActive, Slept, Woken, NotWoken;
    SetActiveDoes(t, false, env);
  }

  predicate ChildResponse(m: Manager, pid: nat, r: Manager) {
    r == m.(table := m.table.(kernel := m.table.kernel.(children :=
      map p | p in m.table.kernel.children :: if p == pid then Exited else m.table.kernel.children[p])))
  }

  // ----- Every event -------------------------------------------------------------------

  /** Callbacks that end in the manager. */
  ghost predicate ManagerResponds(m: Manager, e: Event, r: Manager, env: Env)
    requires OfManager(e)
  {
    match e
    case LockTimer => LockTimerTaken(m, r, env.now)
    case CycleRequest => CycleTaken(m, r, env)
    case UserActivity => UnlockTaken(m, r, env.pointer)
    case MonitorPlugged(monitor, at) => PluggedResponse(m, monitor, at, r, env)
    case MonitorUnplugged(monitor) => UnpluggedResponse(m, monitor, r)
    case ChildExited(pid) => ChildResponse(m, pid, r)
    case WindowDeactivatedIdle(i) => WindowIdleResponse(m, i, r)
    case WindowMapped(w) => MappedResponse(m, w, r, env)
    case WindowObscured(w, obscured) => ObscuredTaken(m, r, w, obscured, env)
    case JobOutputClosed(w) => r == m.(table := r.table) && Reaped(m.table, w, r.table)
    case PopupIdle(w, spawned) => PopupResponse(m, w, spawned, r)
    case DialogOutput(w, line) => LineTaken(m, r, w, line, env)
  }

  lemma WindowDoes(m: Manager, e: Event, env: Env)
    requires OfWindow(e)
    requires Inv(m, env.now)
    ensures ManagerResponds(m, e, InManager(m, e, env), env)
  {
    hide Inv, MapEvent, SetObscured, JobWatch, LockCommandWatch, MappedResponse, ObscuredTaken, Reaped, LineTaken,
         PopupDialogIdle, PopupResponse;
    match e
    case WindowMapped(w) => MappedDoes(m, w, env, env.now);
    case WindowObscured(w, obscured) => ObscureEffect(m, w, obscured, env, env.now);
    case JobOutputClosed(w) => JobWatchKeeps(m, w, env.now);
    case PopupIdle(w, spawned) => PopupDoes(m, w, spawned);
    case DialogOutput(w, line) => DialogEnds(m, w, line, env, env.now);
  }

  lemma PopupDoes(m: Manager, w: WindowId, spawned: bool)
    ensures PopupResponse(m, w, spawned, PopupDialogIdle(m, w, spawned))
  {
  }

  lemma ManagerDoes(m: Manager, e: Event, env: Env)
    requires OfManager(e) && !OfWindow(e)
    requires Inv(m, env.now)
    ensures ManagerResponds(m, e, InManager(m, e, env), env)
  {
    hide Inv, LockTimerFires, Cycle, RequestUnlock, MonitorAdded, MonitorRemoved, ChildExit,
         LockTimerTaken, CycleTaken, UnlockTaken, PluggedResponse, UnpluggedResponse, ChildResponse;
    match e
    case LockTimer => LockTimerDoes(m, env.now);
    case CycleRequest => CycleReplaces(m, env, env.now);
    case UserActivity => UnlockTakes(m, env, env.now);
    case MonitorPlugged(monitor, at) => PluggedDoes(m, monitor, at, env);
    case MonitorUnplugged(monitor) => UnpluggedDoes(m, monitor, env);
    case ChildExited(pid) => ChildDoes(m, pid);
    case WindowDeactivatedIdle(i) =>
  }

  lemma ChildDoes(m: Manager, pid: nat)
    ensures ChildResponse(m, pid, ChildExit(m, pid))
  {
    var c := m.table.kernel.children;
    assert ChildExit(m, pid).table.kernel.children == map p | p in c :: if p == pid then Exited else c[p];
  }

  /** What the screensaver does in response to an event. */
  ghost predicate Responds(s: Saver, e: Event, r: Saver, env: Env) {
    match e
    case Advance(ms) => r == s.(now := s.now + ms)
    case LockRequest => LockTaken(s, r, env)
    case SetActiveRequest(active) => ActiveTaken(s, active, r, env)
    case Inhibit(connection, cookie, answer) => InhibitTaken(s, connection, cookie, answer, r)
    case UnInhibit(cookie, failed) => UnInhibitTaken(s, cookie, failed, r, env)
    case Throttle(connection, cookie) => ThrottleRequested(s, connection, cookie, r, env)
    case UnThrottle(cookie) => UnThrottleTaken(s, cookie, r, env)
    case ConnectionLost(connection, failed) => ConnectionTaken(s, connection, failed, r, env)
    case Presence(status) => StatusTaken(s, status, r)
    case IdleTimer => IdleTimerTaken(s, r, env)
    case PrefsChanged(prefs) => PrefsTaken(s, prefs, r)
    case ManagerDeactivatedIdle(i) => ManagerIdleResponse(s, i, r)
    case _ => r == s.(m := r.m) && ManagerResponds(s.m, e, r.m, env)
  }

  lemma ManagerStepDoes(s: Saver, e: Event, env: Env)
    requires OfManager(e)
    requires SaverInv(s) && env.now == s.now
    ensures Step(s, e, env) == s.(m := Step(s, e, env).m) && ManagerResponds(s.m, e, Step(s, e, env).m, env)
  {
    assert Inv(s.m, s.now);
    assert env.(now := s.now) == env;
    hide SaverInv, Inv, Step, ManagerResponds, InManager;
    StepInManager(s, e, env);
    if OfWindow(e) {
      WindowDoes(s.m, e, env);
    } else {
      ManagerDoes(s.m, e, env);
    }
  }

  /** Every callback does what its event asks for. */
  lemma StepResponds(s: Saver, e: Event, env0: Env)
    requires SaverInv(s)
    ensures Responds(s, e, Step(s, e, env0), env0.(now := s.now))
  {
    var env := env0.(now := s.now);
    hide SaverInv, Step, ManagerResponds;
    SameClock(s, e, env0);
    if OfManager(e) {
      ManagerStepDoes(s, e, env);
    } else {
      hide Responds;
      ListenerStepDoes(s, e, env);
    }
  }

  predicate OfTables(e: Event) {
    e.Inhibit? || e.UnInhibit? || e.Throttle? || e.UnThrottle? || e.ConnectionLost?
  }

  lemma ListenerStepDoes(s: Saver, e: Event, env: Env)
    requires !OfManager(e) && env.now == s.now
    requires SaverInv(s)
    ensures Responds(s, e, Step(s, e, env), env)
  {
    hide SaverInv, Step, Responds;
    if OfTables(e) {
      TablesDo(s, e, env);
    } else {
      OtherStepDoes(s, e, env);
    }
  }

  lemma TablesDo(s: Saver, e: Event, env: Env)
    requires OfTables(e) && env.now == s.now
    requires SaverInv(s)
    ensures Responds(s, e, Step(s, e, env), env)
  {
    hide SaverInv, Step, AddInhibitor, RemoveInhibitor, AddThrottler, RemoveThrottler, ServiceDeleted,
         InhibitTaken, UnInhibitTaken, ThrottleRequested, UnThrottleTaken, ConnectionTaken;
    RequestIs(s, e, env);
    match e
    case Inhibit(connection, cookie, answer) => InhibitDoes(s, connection, cookie, answer, env);
    case UnInhibit(cookie, failed) => UnInhibitDoes(s, cookie, failed, env);
    case Throttle(connection, cookie) => ThrottleDoes(s, connection, cookie, env);
    case UnThrottle(cookie) => UnThrottleDoes(s, cookie, env);
    case ConnectionLost(connection, failed) => ConnectionDoes(s, connection, failed, env);
  }

  lemma OtherStepDoes(s: Saver, e: Event, env: Env)
    requires !OfManager(e) && !OfTables(e) && env.now == s.now
    requires SaverInv(s)
    ensures Responds(s, e, Step(s, e, env), env)
  {
    assert env.(now := s.now) == env;
    hide SaverInv, LockScreen, ListenerSetActive, SetStatus, OnIdleTimeout, UpdateFromPrefs, ActiveTaken, StatusTaken,
         IdleTimerTaken, PrefsTaken, LockTaken, ManagerIdleResponse;
    match e
    case Advance(ms) =>
    case LockRequest => LockRequestDoes(s, env);
    case SetActiveRequest(active) => SetActiveDoes(s, active, env);
    case Presence(status) => StatusDoes(s, status, env);
    case IdleTimer => IdleTimerDoes(s, env);
    case PrefsChanged(prefs) => PrefsDo(s, prefs);
    case ManagerDeactivatedIdle(i) => ManagerIdleStep(s, i, env);
  }

  lemma LockRequestDoes(s: Saver, env: Env)
    requires SaverInv(s) && env.now == s.now
    ensures LockTaken(s, if s.lockDisabled then s else LockScreen(s, env), env)
  {
    hide SaverInv, LockScreen, Woken, NotWoken;
    if !s.lockDisabled {
      LockDoes(s, env);
    }
  }

  lemma ManagerIdleStep(s: Saver, i: nat, env: Env)
    requires SaverInv(s) && env.now == s.now
    ensures ManagerIdleResponse(s, i, Step(s, ManagerDeactivatedIdle(i), env))
  {
    assert env.(now := s.now) == env;
    if i < |s.m.out.managerIdles| {
      var t := s.(m := s.m.(out := s.m.out.(managerIdles := RemoveAt(s.m.out.managerIdles, i))));
      ManagerIdleDoes(s, i, t, env);
      hide SaverInv, ListenerSetActive, ManagerIdleResponse;
    } else {
      hide SaverInv;
    }
  }
}
