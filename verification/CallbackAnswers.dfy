/** The frame lemmas of Answers carried through the listener, the watcher and the monitor
    to every callback. */
module CallbackAnswers {
  import opened JobTable
  import opened ManagerModel
  import opened ScreensaverModel
  import opened Answers

  // ----- Through the listener --------------------------------------------------

  lemma ListenerAnswers(s: Saver, active: bool, env: Env)
    ensures Tame(s.m, ListenerSetActive(s, active, env).s.m)
  {
    hide SetActive;
    SetActiveAnswers(s.m, active, env);
  }

  lemma CheckActivationAnswers(s: Saver, env: Env)
    ensures Tame(s.m, CheckActivation(s, env).s.m)
  {
    hide ListenerSetActive;
    ListenerAnswers(s, true, env);
  }

  lemma WatcherSetIdleAnswers(s: Saver, idle: bool, env: Env)
    ensures Tame(s.m, WatcherSetIdle(s, idle, env).s.m)
  {
    hide CheckActivation;
    CheckActivationAnswers(s.(l := s.l.(sessionIdle := idle)), env);
  }

  lemma SetLockAnswers(m: Manager, locked: bool)
    ensures Tame(m, SetLockActive(m, locked))
  {
  }

  lemma LockScreenAnswers(s: Saver, env: Env)
    ensures Tame(s.m, LockScreen(s, env).m)
  {
    hide ListenerSetActive, SetLockActive, Tame;
    var s1 := s.(m := SetLockActive(s.m, true));
    var r := ListenerSetActive(s1, true, env).s;
    SetLockAnswers(s.m, true);
    ListenerAnswers(s1, true, env);
    SetLockAnswers(r.m, s.m.lockActive);
    TameTwice(s.m, s1.m, r.m);
    TameTwice(s.m, r.m, SetLockActive(r.m, s.m.lockActive));
  }

  lemma CheckThrottleAnswers(s: Saver, env: Env)
    ensures Tame(s.m, CheckThrottle(s, env).m)
  {
  }

  lemma ConnectionLostAnswers(s: Saver, connection: string, failed: set<nat>, env: Env)
    ensures Tame(s.m, ServiceDeleted(s, connection, failed, env).m)
  {
    hide CheckThrottle, CheckActivation;
    var throttles := OfConnection(s.l.throttlers, connection);
    CheckThrottleAnswers(s.(l := s.l.(throttlers := s.l.throttlers - throttles)), env);
    var s1 := ThrottlersGone(s, connection, env);
    var inhibits := OfConnection(s1.l.inhibitors, connection);
    CheckActivationAnswers(s1.(l := DropInhibitors(s1.l, inhibits, failed)), env);
  }

  lemma InhibitAnswers(s: Saver, connection: string, cookie: nat, answer: nat, env: Env)
    ensures Tame(s.m, AddInhibitor(s, connection, cookie, answer, env).m)
  {
    hide CheckActivation;
    var f := ForeignCookie(s.l, answer);
    CheckActivationAnswers(s.(l := s.l.(inhibitors := s.l.inhibitors[cookie := Entry(cookie, connection, f)],
                                        session := if f == 0 then s.l.session else s.l.session + {f})), env);
  }

  lemma LedgerAnswers(s: Saver, e: Event, env: Env)
    requires e.UnInhibit? || e.Throttle? || e.UnThrottle?
    requires env.now == s.now
    ensures Tame(s.m, Step(s, e, env).m)
  {
    assert env.(now := s.now) == env;
    hide CheckActivation, CheckThrottle, DropInhibitors;
    match e
    case UnInhibit(cookie, failed) => CheckActivationAnswers(s.(l := DropInhibitors(s.l, {cookie}, failed)), env);
    case Throttle(connection, cookie) =>
      CheckThrottleAnswers(s.(l := s.l.(throttlers := s.l.throttlers[cookie := Entry(cookie, connection, 0)])), env);
    case UnThrottle(cookie) => CheckThrottleAnswers(s.(l := s.l.(throttlers := s.l.throttlers - {cookie})), env);
  }

  lemma NoticeLeavesManager(s: Saver, notice: bool)
    ensures WatcherSetNotice(s, notice).m == s.m
  {
  }

  lemma PresenceAnswers(s: Saver, status: nat, env: Env)
    ensures Tame(s.m, SetStatus(s, status, env).m)
  {
    hide WatcherSetIdle, WatcherSetNotice, Tame;
    var s1 := s.(w := s.w.(idleTimer := false));
    TameOthers(s.m, s.m);
    NoticeLeavesManager(s, true);
    WatcherSetIdleAnswers(s1, false, env);
    NoticeLeavesManager(WatcherSetIdle(s1, false, env).s, false);
  }

  lemma IdleTimeoutAnswers(s: Saver, env: Env)
    ensures Tame(s.m, OnIdleTimeout(s, env).m)
  {
    hide WatcherSetIdle, WatcherSetNotice, Tame;
    TameOthers(s.m, s.m);
    WatcherSetIdleAnswers(s, true, env);
    NoticeLeavesManager(WatcherSetIdle(s, true, env).s, false);
  }

  lemma WatcherAnswers(s: Saver, e: Event, env: Env)
    requires e.Presence? || e.IdleTimer?
    requires env.now == s.now
    ensures Tame(s.m, Step(s, e, env).m)
  {
    assert env.(now := s.now) == env;
    hide SetStatus, OnIdleTimeout, Tame;
    match e
    case Presence(status) => PresenceAnswers(s, status, env);
    case IdleTimer => IdleTimeoutAnswers(s, env);
  }

  lemma TimerAnswers(s: Saver, e: Event, env: Env)
    requires e.Advance? || e.PrefsChanged? || e.LockTimer?
    ensures Tame(s.m, Step(s, e, env).m)
  {
    hide UpdateFromPrefs, LockTimerFires;
    match e
    case Advance(_) =>
    case PrefsChanged(p) => PrefsAnswers(s, p);
    case LockTimer => ActivateLockAnswers(s.m, s.now);
  }

  lemma JobAnswers(s: Saver, e: Event, env: Env)
    requires e.CycleRequest? || e.WindowMapped? || e.JobOutputClosed? || e.ChildExited?
    ensures Tame(s.m, Step(s, e, env).m)
  {
    hide ApplyAll, JobOrder, WalkOf, MaybeStart, JobHup, ChildExits, Tame;
    TameOthers(s.m, Step(s, e, env).m);
  }

  lemma IdleAnswers(s: Saver, e: Event, env: Env)
    requires e.PopupIdle? || e.WindowDeactivatedIdle?
    ensures Tame(s.m, Step(s, e, env).m)
  {
  }

  lemma ActivateLockAnswers(m: Manager, now: nat)
    ensures Tame(m, LockTimerFires(m, now))
  {
  }

  lemma LockAnswers(m: Manager)
    ensures Tame(m, ActivateLockTimeout(m))
  {
  }

  lemma TimeoutAnswers(m: Manager, lockTimeout: int, now: nat)
    ensures Tame(m, SetLockTimeout(m, lockTimeout, now))
  {
    hide ActivateLockTimeout, Elapsed;
    LockAnswers(m.(timers := m.timers.(lockTimeout := lockTimeout)));
  }

  lemma PrefsAnswers(s: Saver, p: Prefs)
    ensures Tame(s.m, UpdateFromPrefs(s, p).m)
  {
    hide SetLockTimeout, Clamp;
    TimeoutAnswers(SetLockEnabled(s.m, p.lockEnabled && !p.lockDisabled), Clamp(0, p.lockMinutes, 480) * 60000, s.now);
  }

  lemma RequestAnswers(s: Saver, e: Event, env: Env)
    requires e.LockRequest? || e.SetActiveRequest? || e.Inhibit? || e.ConnectionLost? || e.ManagerDeactivatedIdle?
    requires env.now == s.now
    ensures Tame(s.m, Step(s, e, env).m)
  {
    assert env.(now := s.now) == env;
    hide LockScreen, ListenerSetActive, AddInhibitor, ServiceDeleted, RemoveAt, Tame;
    TameOthers(s.m, s.m);
    match e
    case LockRequest => LockScreenAnswers(s, env);
    case SetActiveRequest(active) => ListenerAnswers(s, active, env);
    case Inhibit(connection, cookie, answer) => InhibitAnswers(s, connection, cookie, answer, env);
    case ConnectionLost(connection, failed) => ConnectionLostAnswers(s, connection, failed, env);
    case ManagerDeactivatedIdle(i) =>
      if i < |s.m.out.managerIdles| {
        var m := s.m.(out := s.m.out.(managerIdles := RemoveAt(s.m.out.managerIdles, i)));
        ListenerAnswers(s.(m := m), false, env);
        TameOthers(s.m, m);
        TameTwice(s.m, m, ListenerSetActive(s.(m := m), false, env).s.m);
      }
  }

  lemma DisplayAnswers(s: Saver, e: Event, env: Env)
    requires e.UserActivity? || e.MonitorPlugged? || e.MonitorUnplugged? || e.WindowObscured?
    ensures Tame(s.m, Step(s, e, env).m)
  {
    StepInManager(s, e, env);
    hide Step, RequestUnlock, MonitorAdded, MonitorRemoved, SetObscured, Tame;
    var env1 := env.(now := s.now);
    match e
    case UserActivity => RequestUnlockAnswers(s.m, env1);
    case MonitorPlugged(monitor, at) => MonitorAddedAnswers(s.m, monitor, at, env1);
    case MonitorUnplugged(monitor) => MonitorRemovedAnswers(s.m, monitor, env1);
    case WindowObscured(w, obscured) => SetObscuredAnswers(s.m, w, obscured, env1);
  }

  lemma TameStep(s: Saver, e: Event, env: Env)
    requires !e.DialogOutput? && env.now == s.now
    ensures Tame(s.m, Step(s, e, env).m)
  {
    hide Step, Tame;
    match e
    case Advance(_) => TimerAnswers(s, e, env);
    case PrefsChanged(_) => TimerAnswers(s, e, env);
    case LockTimer => TimerAnswers(s, e, env);
    case UnInhibit(_, _) => LedgerAnswers(s, e, env);
    case Throttle(_, _) => LedgerAnswers(s, e, env);
    case UnThrottle(_) => LedgerAnswers(s, e, env);
    case Presence(_) => WatcherAnswers(s, e, env);
    case IdleTimer => WatcherAnswers(s, e, env);
    case CycleRequest => JobAnswers(s, e, env);
    case WindowMapped(_) => JobAnswers(s, e, env);
    case JobOutputClosed(_) => JobAnswers(s, e, env);
    case ChildExited(_) => JobAnswers(s, e, env);
    case PopupIdle(_, _) => IdleAnswers(s, e, env);
    case WindowDeactivatedIdle(_) => IdleAnswers(s, e, env);
    case UserActivity => DisplayAnswers(s, e, env);
    case MonitorPlugged(_, _) => DisplayAnswers(s, e, env);
    case MonitorUnplugged(_) => DisplayAnswers(s, e, env);
    case WindowObscured(_, _) => DisplayAnswers(s, e, env);
    case _ => RequestAnswers(s, e, env);
  }

  /** Only RESPONSE=OK of the window's own running dialog makes it remember an answer;
      window ids are never reused, and tokens name windows that existed. */
  lemma StepAnswers(s: Saver, e: Event, env0: Env)
    ensures var r := Step(s, e, env0);
            Remembers(s.m, e, r.m) && Issued(s.m, r.m)
  {
    var env := env0.(now := s.now);
    if e.DialogOutput? {
      hide LockCommandWatch, Issued;
      DialogAnswers(s.m, e.window, e.line, env);
    } else {
      SameClock(s, e, env0);
      TameStep(s, e, env);
      hide Step, Issued;
    }
  }
}
