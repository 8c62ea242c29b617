/** The running objects: listener, watcher and manager, and the monitor that connects
    them.  Every callback is a method that updates the objects in place, is proved to
    take the step of ScreensaverModel, and so keeps the invariant of ScreensaverProofs. */
module Screensaver {
  import opened ManagerModel
  import opened ManagerObject
  import opened ScreensaverModel
  import opened ScreensaverProofs
  import opened ScreensaverRuns

  class DBusListener {
    var sessionIdle: bool
    var active: bool
    var activationEnabled: bool
    var throttled: bool
    var inhibitors: map<nat, Entry>
    var throttlers: map<nat, Entry>
    var activeStart: int
    var idleStart: int
    var session: set<nat>
    var leaked: set<nat>
    var idleWhileDisabled: bool

    constructor ()
      ensures View() == Listener(false, false, false, false, map[], map[], 0, 0, {}, {}, false)
    {
      sessionIdle, active, activationEnabled, throttled := false, false, false, false;
      inhibitors, throttlers, activeStart, idleStart := map[], map[], 0, 0;
      session, leaked, idleWhileDisabled := {}, {}, false;
    }

    function View(): Listener
      reads this
    {
      Listener(sessionIdle, active, activationEnabled, throttled, inhibitors, throttlers,
               activeStart, idleStart, session, leaked, idleWhileDisabled)
    }

    method MarkIdle(idle: bool, now: nat)
      modifies this
      ensures View() == SetIdleInternal(old(View()), idle, now)
    {
      sessionIdle := idle;
      if idle {
        idleStart := now / 1000;
        idleWhileDisabled := !activationEnabled;
      } else {
        idleStart := 0;
        idleWhileDisabled := false;
      }
    }

    method MarkActive(active: bool, now: nat)
      modifies this
      ensures View() == SetActiveInternal(old(View()), active, now)
    {
      this.active := active;
      if sessionIdle != active {
        MarkIdle(active, now);
      }
      activeStart := if active then now / 1000 else 0;
    }

    /** Removes one entry; its proxied inhibit is released unless that call fails. */
    method RemoveOneInhibitor(cookie: nat, failed: set<nat>)
      requires cookie in inhibitors
      modifies this
      ensures View() == DropInhibitors(old(View()), {cookie}, failed)
    {
      var foreign := inhibitors[cookie].foreign;
      assert Foreigns(inhibitors, {cookie}) == if foreign != 0 then {foreign} else {};
      if foreign != 0 {
        if foreign in failed {
          leaked := leaked + {foreign};
        } else {
          session := session - {foreign};
        }
      }
      inhibitors := inhibitors - {cookie};
    }

    /** Walks the table and removes the entries of one connection. */
    method RemoveInhibitorsOf(connection: string, failed: set<nat>) returns (removed: bool)
      modifies this
      ensures View() == DropInhibitors(old(View()), OfConnection(old(inhibitors), connection), failed)
      ensures removed == (OfConnection(old(inhibitors), connection) != {})
    {
      ghost var l := View();
      var left := OfConnection(inhibitors, connection);
      ghost var done: set<nat> := {};
      ghost var all := left;
      removed := false;
      NothingDropped(l, failed);
      while left != {}
        invariant left !! done && left + done == all
        invariant all == OfConnection(l.inhibitors, connection)
        invariant View() == DropInhibitors(l, done, failed)
        invariant removed == (done != {})
        decreases left
      {
        var c :| c in left;
        DropOneMore(l, done, c, failed);
        RemoveOneInhibitor(c, failed);
        done := done + {c};
        left := left - {c};
        removed := true;
      }
    }

    method RemoveThrottlersOf(connection: string) returns (removed: bool)
      modifies this`throttlers
      ensures throttlers == old(throttlers) - OfConnection(old(throttlers), connection)
      ensures removed == (OfConnection(old(throttlers), connection) != {})
    {
      var all := OfConnection(throttlers, connection);
      var left := all;
      removed := false;
      while left != {}
        invariant left <= all
        invariant throttlers == old(throttlers) - (all - left)
        invariant removed == (left != all)
        decreases left
      {
        var c :| c in left;
        throttlers := throttlers - {c};
        left := left - {c};
        removed := true;
      }
    }
  }

  lemma NothingDropped(l: Listener, failed: set<nat>)
    ensures DropInhibitors(l, {}, failed) == l
  {
  }

  /** Removing entries one at a time is removing them together. */
  lemma DropOneMore(l: Listener, done: set<nat>, c: nat, failed: set<nat>)
    requires c in l.inhibitors && c !in done
    ensures c in DropInhibitors(l, done, failed).inhibitors
    ensures DropInhibitors(DropInhibitors(l, done, failed), {c}, failed) == DropInhibitors(l, done + {c}, failed)
  {
    var d := DropInhibitors(l, done, failed);
    var b1, b2, b := Foreigns(l.inhibitors, done), Foreigns(d.inhibitors, {c}), Foreigns(l.inhibitors, done + {c});
    assert b == b1 + b2;
    assert d.inhibitors - {c} == l.inhibitors - (done + {c});
    assert l.session - (b1 - failed) - (b2 - failed) == l.session - (b - failed);
    assert l.leaked + b1 * failed + b2 * failed == l.leaked + b * failed;
  }

  lemma SameTime(s: Saver, env: Env)
    ensures CheckActivation(s, env).s.now == s.now
  {
    hide SetActive;
  }

  class IdleWatcher {
    var enabled: bool
    var active: bool
    var idle: bool
    var idleNotice: bool
    var idleTimer: bool

    constructor ()
      ensures View() == Watcher(true, false, false, false, false)
    {
      enabled, active, idle, idleNotice, idleTimer := true, false, false, false, false;
    }

    function View(): Watcher
      reads this
    {
      Watcher(enabled, active, idle, idleNotice, idleTimer)
    }

    method Watch(active: bool)
      modifies this
      ensures View() == WatcherSetActive(old(View()), active)
    {
      if this.active != active && enabled {
        idle, idleNotice := false, false;
        this.active := active;
      }
    }
  }

  /** The monitor: it owns the three objects and handles their signals. */
  class Monitor {
    const listener: DBusListener
    const watcher: IdleWatcher
    const manager: ScreenManager
    var now: nat
    var lockDisabled: bool

    constructor (monitors: seq<MonitorId>, prefs: Prefs, now: nat)
      ensures View() == ScreensaverModel.Start(monitors, prefs, now)
      ensures fresh(listener) && fresh(watcher) && fresh(manager)
    {
      listener := new DBusListener();
      watcher := new IdleWatcher();
      manager := new ScreenManager(monitors);
      this.now, lockDisabled := now, false;
      new;
      ApplyPrefs(prefs);
    }

    function View(): Saver
      reads this, listener, watcher, manager
    {
      Saver(listener.View(), watcher.View(), manager.View(), now, lockDisabled)
    }

    // ----- Listener --------------------------------------------------------------

    method OnActiveChanged(active: bool, env: Env) returns (ok: bool)
      modifies this, listener, watcher, manager
      ensures Result(View(), ok) == ActiveChanged(old(View()), active, env)
    {
      if active {
        ok := manager.ActivateManager(env);
      } else {
        ok := manager.DeactivateManager(env);
      }
      if ok && watcher.enabled {
        watcher.Watch(!active);
      }
    }

    method SetSaverActive(active: bool, env: Env) returns (ok: bool)
      modifies this, listener, watcher, manager
      ensures Result(View(), ok) == ListenerSetActive(old(View()), active, env)
    {
      if listener.active == active {
        return false;
      }
      ok := OnActiveChanged(active, env);
      if !ok {
        if active {
          listener.MarkIdle(false, now);
        }
        return false;
      }
      listener.MarkActive(active, now);
    }

    method TryActivation(env: Env) returns (ok: bool)
      modifies this, listener, watcher, manager
      ensures Result(View(), ok) == CheckActivation(old(View()), env)
    {
      if !listener.activationEnabled || !listener.sessionIdle {
        return true;
      }
      if listener.inhibitors != map[] {
        return false;
      }
      ok := SetSaverActive(true, env);
    }

    method SetSessionIdle(idle: bool, env: Env) returns (ok: bool)
      modifies this, listener, watcher, manager
      ensures Result(View(), ok) == ListenerSetSessionIdle(old(View()), idle, env)
    {
      hide CheckActivation, SetIdleInternal;
      if listener.sessionIdle == idle {
        return false;
      }
      if idle && listener.inhibitors != map[] {
        return false;
      }
      ok := ChangeIdle(idle, env);
    }

    method ChangeIdle(idle: bool, env: Env) returns (ok: bool)
      modifies this, listener, watcher, manager
      ensures var s := old(View());
              var r := CheckActivation(s.(l := s.l.(sessionIdle := idle)), env);
              && ok == r.ok
              && View() == if r.ok then r.s.(l := SetIdleInternal(r.s.l, idle, s.now))
                           else r.s.(l := r.s.l.(sessionIdle := !idle))
    {
      listener.sessionIdle := idle;
      SameTime(View(), env);
      hide CheckActivation, SetIdleInternal;
      ok := TryActivation(env);
      SettleIdle(idle, ok);
    }

    method SettleIdle(idle: bool, ok: bool)
      modifies listener
      ensures var s := old(View());
              View() == if ok then s.(l := SetIdleInternal(s.l, idle, s.now))
                        else s.(l := s.l.(sessionIdle := !idle))
    {
      hide SetIdleInternal;
      if ok {
        listener.MarkIdle(idle, now);
      } else {
        listener.sessionIdle := !idle;
      }
    }

    method UpdateThrottle(env: Env)
      modifies this, listener, watcher, manager
      ensures View() == CheckThrottle(old(View()), env)
    {
      var throttled := listener.throttlers != map[];
      if throttled != listener.throttled {
        listener.throttled := throttled;
        manager.SetThrottle(throttled, env);
      }
    }

    method OnInhibit(connection: string, cookie: nat, answer: nat, env: Env)
      modifies this, listener, watcher, manager
      ensures View() == AddInhibitor(old(View()), connection, cookie, answer, env)
    {
      if FreshCookie(listener.inhibitors, cookie) {
        var foreign := ForeignCookie(listener.View(), answer);
        if foreign != 0 {
          listener.session := listener.session + {foreign};
        }
        listener.inhibitors := listener.inhibitors[cookie := Entry(cookie, connection, foreign)];
        var _ := TryActivation(env);
      }
    }

    method OnUnInhibit(cookie: nat, failed: set<nat>, env: Env)
      modifies this, listener, watcher, manager
      ensures View() == RemoveInhibitor(old(View()), cookie, failed, env)
    {
      if cookie in listener.inhibitors {
        listener.RemoveOneInhibitor(cookie, failed);
        var _ := TryActivation(env);
      }
    }

    method OnThrottle(connection: string, cookie: nat, env: Env)
      modifies this, listener, watcher, manager
      ensures View() == AddThrottler(old(View()), connection, cookie, env)
    {
      hide CheckThrottle;
      if FreshCookie(listener.throttlers, cookie) {
        listener.throttlers := listener.throttlers[cookie := Entry(cookie, connection, 0)];
        UpdateThrottle(env);
      }
    }

    method OnUnThrottle(cookie: nat, env: Env)
      modifies this, listener, watcher, manager
      ensures View() == RemoveThrottler(old(View()), cookie, env)
    {
      hide CheckThrottle;
      if cookie in listener.throttlers {
        listener.throttlers := listener.throttlers - {cookie};
        UpdateThrottle(env);
      }
    }

    method OnServiceDeleted(connection: string, failed: set<nat>, env: Env)
      modifies this, listener, watcher, manager
      ensures View() == ServiceDeleted(old(View()), connection, failed, env)
    {
      hide ThrottlersGone, InhibitorsGone;
      DropThrottlersOf(connection, env);
      DropInhibitorsOf(connection, failed, env);
    }

    method DropThrottlersOf(connection: string, env: Env)
      modifies this, listener, watcher, manager
      ensures View() == ThrottlersGone(old(View()), connection, env)
    {
      hide CheckThrottle, OfConnection;
      var removed := listener.RemoveThrottlersOf(connection);
      if removed {
        UpdateThrottle(env);
      } else {
        assert old(listener.throttlers) - {} == old(listener.throttlers);
      }
    }

    method DropInhibitorsOf(connection: string, failed: set<nat>, env: Env)
      modifies this, listener, watcher, manager
      ensures View() == InhibitorsGone(old(View()), connection, failed, env)
    {
      NothingDropped(listener.View(), failed);
      hide CheckActivation, DropInhibitors, OfConnection;
      var removed := listener.RemoveInhibitorsOf(connection, failed);
      if removed {
        var _ := TryActivation(env);
      }
    }

    // ----- Watcher ---------------------------------------------------------------

    method SetWatcherIdle(idle: bool, env: Env) returns (ok: bool)
      modifies this, listener, watcher, manager
      ensures Result(View(), ok) == WatcherSetIdle(old(View()), idle, env)
    {
      if idle == watcher.idle {
        return false;
      }
      ok := SetSessionIdle(idle, env);
      if ok {
        watcher.idle := idle;
      }
    }

    method SetIdleNotice(notice: bool)
      modifies this, listener, watcher, manager
      ensures View() == WatcherSetNotice(old(View()), notice)
    {
      if notice != watcher.idleNotice {
        if !notice || (listener.activationEnabled && listener.inhibitors == map[]) {
          watcher.idleNotice := notice;
        }
      }
    }

    method IdleTimeout(env: Env)
      modifies this, listener, watcher, manager
      ensures View() == OnIdleTimeout(old(View()), env)
    {
      if watcher.idleTimer {
        var ok := SetWatcherIdle(true, env);
        SetIdleNotice(false);
        if ok {
          watcher.idleTimer := false;
        }
      }
    }

    method PresenceChanged(status: nat, env: Env)
      modifies this, listener, watcher, manager
      ensures View() == SetStatus(old(View()), status, env)
    {
      if !watcher.active {
        return;
      }
      if status == 3 {
        SetIdleNotice(true);
        watcher.idleTimer := true;
      } else if watcher.idleNotice {
        watcher.idleTimer := false;
        var _ := SetWatcherIdle(false, env);
        SetIdleNotice(false);
      }
    }

    // ----- Monitor ---------------------------------------------------------------

    method LockTheScreen(env: Env)
      modifies this, listener, watcher, manager
      ensures View() == LockScreen(old(View()), env)
    {
      var locked := manager.lockActive;
      manager.SetLock(true);
      if !manager.active {
        var ok := SetSaverActive(true, env);
        if !ok {
          manager.SetLock(locked);
        }
      }
    }

    method ApplyPrefs(p: Prefs)
      modifies this, listener, watcher, manager
      ensures View() == UpdateFromPrefs(old(View()), p)
    {
      hide SetLockTimeout, SetCycleTimeout, Clamp;
      lockDisabled := p.lockDisabled;
      ApplyToManager(p);
      watcher.enabled := true;
      listener.activationEnabled := p.idleActivation;
      if !manager.active && !watcher.active {
        watcher.Watch(true);
      }
    }

    method ApplyToManager(p: Prefs)
      modifies manager
      ensures manager.View() == PrefsManager(old(manager.View()), p, now)
    {
      hide SetLockTimeout, SetCycleTimeout, Clamp;
      manager.lockEnabled := p.lockEnabled && !p.lockDisabled;
      manager.ChangeLockTimeout(Clamp(0, p.lockMinutes, 480) * 60000, now);
      manager.ChangeCycleTimeout(Clamp(1, p.cycleMinutes, 480) * 60000);
    }

    // ----- The main loop ---------------------------------------------------------

    /** One top-level callback.  From a good state it reaches a good state, changing
        activity, locking and the queues only as the event explains. */
    method Dispatch(e: Event, env0: Env)
      modifies this, listener, watcher, manager
      ensures View() == Step(old(View()), e, env0)
      ensures old(SaverInv(View())) ==> Explained(old(View()), e, View())
    {
      ghost var s := View();
      if SaverInv(s) {
        StepExplained(s, e, env0);
      }
      hide SaverInv, Explained;
      DispatchOne(e, env0);
    }

    method DispatchOne(e: Event, env0: Env)
      modifies this, listener, watcher, manager
      ensures View() == Step(old(View()), e, env0)
    {
      hide Step;
      if OfManager(e) {
        DispatchToManager(e, env0);
      } else {
        DispatchRequest(e, env0);
      }
    }

    method DispatchRequest(e: Event, env0: Env)
      requires !OfManager(e)
      modifies this, listener, watcher, manager
      ensures View() == Step(old(View()), e, env0)
    {
      hide Step;
      if OfListener(e) {
        DispatchToListener(e, env0);
      } else {
        DispatchToMonitor(e, env0);
      }
    }

    method DispatchToListener(e: Event, env0: Env)
      requires OfListener(e)
      modifies this, listener, watcher, manager
      ensures View() == Step(old(View()), e, env0)
    {
      hide ListenerSetActive, AddInhibitor, RemoveInhibitor, AddThrottler, RemoveThrottler, ServiceDeleted;
      var env := env0.(now := now);
      match e {
        case SetActiveRequest(active) => var _ := SetSaverActive(active, env);
        case Inhibit(connection, cookie, answer) => OnInhibit(connection, cookie, answer, env);
        case UnInhibit(cookie, failed) => OnUnInhibit(cookie, failed, env);
        case Throttle(connection, cookie) => OnThrottle(connection, cookie, env);
        case UnThrottle(cookie) => OnUnThrottle(cookie, env);
        case ConnectionLost(connection, failed) => OnServiceDeleted(connection, failed, env);
      }
    }

    method DispatchToMonitor(e: Event, env0: Env)
      requires !OfManager(e) && !OfListener(e)
      modifies this, listener, watcher, manager
      ensures View() == Step(old(View()), e, env0)
    {
      hide LockScreen, ListenerSetActive, SetStatus, OnIdleTimeout, UpdateFromPrefs;
      var env := env0.(now := now);
      match e {
        case Advance(ms) => now := now + ms;
        case LockRequest =>
          if !lockDisabled {
            LockTheScreen(env);
          }
        case Presence(status) => PresenceChanged(status, env);
        case IdleTimer => IdleTimeout(env);
        case PrefsChanged(prefs) => ApplyPrefs(prefs);
        case ManagerDeactivatedIdle(i) =>
          if i < |manager.out.managerIdles| {
            manager.out := manager.out.(managerIdles := RemoveAt(manager.out.managerIdles, i));
            var _ := SetSaverActive(false, env);
          }
      }
    }

    method DispatchToManager(e: Event, env0: Env)
      requires OfManager(e)
      modifies manager
      ensures View() == Step(old(View()), e, env0)
    {
      StepInManager(View(), e, env0);
      hide Step, InManager;
      if OfWindow(e) {
        DispatchToWindow(e, env0.(now := now));
      } else {
        DispatchToDisplay(e, env0.(now := now));
      }
    }

    method DispatchToDisplay(e: Event, env: Env)
      requires OfManager(e) && !OfWindow(e)
      modifies manager
      ensures manager.View() == InManager(old(manager.View()), e, env)
    {
      hide LockTimerFires, Cycle, RequestUnlock, MonitorAdded, MonitorRemoved, ChildExit, EmitDeactivatedIdle;
      match e {
        case LockTimer => manager.DispatchLockTimer(env.now);
        case CycleRequest => manager.CycleJobs(env);
        case UserActivity => var _ := manager.UnlockRequested(env);
        case MonitorPlugged(monitor, at) => manager.DisplayMonitorAdded(monitor, at, env);
        case MonitorUnplugged(monitor) => manager.DisplayMonitorRemoved(monitor, env);
        case ChildExited(pid) => manager.ChildExited(pid);
        case WindowDeactivatedIdle(i) => manager.WindowDeactivated(i);
      }
    }

    method DispatchToWindow(e: Event, env: Env)
      requires OfWindow(e)
      modifies manager
      ensures manager.View() == InManager(old(manager.View()), e, env)
    {
      hide MapEvent, SetObscured, JobWatch, PopupDialogIdle, LockCommandWatch;
      match e {
        case WindowMapped(w) => manager.WindowMapped(w, env);
        case WindowObscured(w, obscured) => manager.WindowObscured(w, obscured, env);
        case JobOutputClosed(w) => manager.JobOutputClosed(w);
        case PopupIdle(w, spawned) => manager.PopupDialog(w, spawned);
        case DialogOutput(w, line) => manager.DialogPrinted(w, line, env);
      }
    }
  }

  /** D-Bus requests that the listener handles. */
  predicate OfListener(e: Event) {
    e.SetActiveRequest? || e.Inhibit? || e.UnInhibit? || e.Throttle? || e.UnThrottle? || e.ConnectionLost?
  }
}
