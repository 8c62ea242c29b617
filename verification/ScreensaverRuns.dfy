/** Facts about every run of the screensaver: the invariant in every state, and what
    each step may do to activity, locking and the queued deactivations. */
module ScreensaverRuns {
  import opened JobTable
  import opened ManagerModel
  import opened ManagerProofs
  import opened ManagerLifecycle
  import opened HotPlug
  import opened ScreensaverModel
  import opened ScreensaverProofs
  import opened Answers

  // ----- What one step may do --------------------------------------------------

  /** Why a window may queue a deactivation: its dialog says OK, or ends after it said OK,
      or the window was not locked when asked to unlock. */
  predicate Justified(m: Manager, e: Event, t: Token) {
    match t.cause
    case WindowNotLocked => m.active && !m.lockActive
    case DialogSaidOk =>
      || SaysOk(m, e, t.window)
      || (e == DialogOutput(t.window, EndOfOutput) && t.window in m.win && m.win[t.window].okResponse)
  }

  predicate QueuedOne(m: Manager, e: Event, q: seq<Token>) {
    |q| == |m.out.windowIdles| + 1 && q[..|q| - 1] == m.out.windowIdles && Justified(m, e, q[|q| - 1])
  }

  /** The two idle callbacks that take a token from its queue. */
  predicate TakesToken(m: Manager, e: Event) {
    || (e.WindowDeactivatedIdle? && e.index < |m.out.windowIdles|)
    || (e.ManagerDeactivatedIdle? && e.index < |m.out.managerIdles|)
  }

  /** A window's idle passes its token on to the manager if the window still exists; the
      manager's idle uses its token up and leaves the saver inactive; no other step takes
      a token away, and each adds at most one. */
  predicate QueuesExplained(m: Manager, e: Event, r: Manager) {
    if e.WindowDeactivatedIdle? && e.index < |m.out.windowIdles| then
      var t := m.out.windowIdles[e.index];
      && r.out.windowIdles == RemoveAt(m.out.windowIdles, e.index)
      && r.out.managerIdles == m.out.managerIdles + (if t.window in m.win then [t] else [])
    else
      && (r.out.windowIdles == m.out.windowIdles || QueuedOne(m, e, r.out.windowIdles))
      && (if e.ManagerDeactivatedIdle? && e.index < |m.out.managerIdles| then
            r.out.managerIdles == RemoveAt(m.out.managerIdles, e.index) && !r.active
          else r.out.managerIdles == m.out.managerIdles)
  }

  predicate Explicit(e: Event) {
    e.LockRequest? || e == SetActiveRequest(true)
  }

  /** Activation, deactivation, locking and lapsing, explained by the event. */
  predicate ActivityExplained(s: Saver, e: Event, r: Saver) {
    // inhibited idle activation
    && (!s.m.active && r.m.active ==> Explicit(e) || (r.l.inhibitors == map[] && r.l.activationEnabled))
    // deactivation only on request or by a queued token
    && (s.m.active && !r.m.active ==>
          e == SetActiveRequest(false) || (e.ManagerDeactivatedIdle? && e.index < |s.m.out.managerIdles|))
    // within one activation the lock never reverts
    && (s.m.active && r.m.active && s.m.lockActive ==> r.m.lockActive)
    // only an expired timeout with locking disabled lapses
    && (r.m.timers.lapsed && !s.m.timers.lapsed ==> !r.m.lockEnabled)
    // time moves forward
    && s.now <= r.now
  }

  ghost predicate Explained(s: Saver, e: Event, r: Saver) {
    SaverInv(r) && ActivityExplained(s, e, r) && QueuesExplained(s.m, e, r.m)
  }

  // ----- Steps of the manager alone --------------------------------------------

  predicate Steady(m: Manager, r: Manager) {
    && r.active == m.active && (m.lockActive ==> r.lockActive)
    && r.throttled == m.throttled && r.lockEnabled == m.lockEnabled
    && (r.timers.lapsed && !m.timers.lapsed ==> !r.lockEnabled)
  }

  lemma ManagerStep(s: Saver, e: Event, r: Manager)
    requires SaverInv(s) && Inv(r, s.now) && Steady(s.m, r) && QueuesExplained(s.m, e, r)
    ensures Explained(s, e, s.(m := r))
  {
    hide Inv, ListenerOk, QueuesExplained;
  }

  lemma GentleExplained(s: Saver, e: Event, r: Saver)
    requires !TakesToken(s.m, e)
    requires SaverInv(s) && SaverInv(r) && Gentle(s, r)
    ensures Explained(s, e, r)
  {
    hide Inv, ListenerOk;
  }

  lemma UnlockedQueues(m: Manager, e: Event, q: seq<Token>, now: nat)
    requires QueuedUnlocked(m, q)
    requires Inv(m, now)
    ensures QueuedOne(m, e, q)
  {
    hide Base, MonitorsOk, TimersOk;
    var w :| w in m.win && !m.win[w].lockEnabled && q == m.out.windowIdles + [Token(w, WindowNotLocked)];
    assert m.active && !m.lockActive by { assert Shape(m); }
    hide Shape;
  }

  lemma RequestedExplained(m: Manager, e: Event, r: Manager, now: nat)
    requires !TakesToken(m, e)
    requires Inv(m, now) && SameShape(m, r) && Requested(m, r)
    ensures Steady(m, r) && QueuesExplained(m, e, r)
  {
    hide Inv, QueuedUnlocked, QueuedOne;
    if r.out.windowIdles != m.out.windowIdles {
      UnlockedQueues(m, e, r.out.windowIdles, now);
    }
  }

  lemma UserActivityExplained(s: Saver, env: Env)
    requires SaverInv(s)
    ensures Explained(s, UserActivity, s.(m := RequestUnlock(s.m, env)))
  {
    hide Inv, RequestUnlock, Explained, QueuesExplained, SameShape, Requested;
    var r := RequestUnlock(s.m, env);
    RequestUnlockKeeps(s.m, env, s.now);
    RequestedExplained(s.m, UserActivity, r, s.now);
    ManagerStep(s, UserActivity, r);
  }

  lemma ObscuredExplained(s: Saver, w: WindowId, obscured: bool, env: Env)
    requires SaverInv(s)
    ensures Explained(s, WindowObscured(w, obscured), s.(m := SetObscured(s.m, w, obscured, env)))
  {
    hide Inv, SetObscured, Explained, QueuesExplained, SameShape, Requested;
    var e := WindowObscured(w, obscured);
    var r := SetObscured(s.m, w, obscured, env);
    SetObscuredKeeps(s.m, w, obscured, env, s.now);
    RequestedExplained(s.m, e, r, s.now);
    ManagerStep(s, e, r);
  }

  lemma PluggedExplained(s: Saver, monitor: MonitorId, at: nat, env: Env)
    requires SaverInv(s) && env.now == s.now
    ensures Explained(s, MonitorPlugged(monitor, at), s.(m := MonitorAdded(s.m, monitor, at, env)))
  {
    hide MonitorAdded, Inv, Explained;
    var e := MonitorPlugged(monitor, at);
    var r := MonitorAdded(s.m, monitor, at, env);
    MonitorAddedKeeps(s.m, monitor, at, env);
    PluggedInExplained(s.m, e, r);
    hide QueuesExplained, PluggedIn;
    ManagerStep(s, e, r);
  }

  lemma PluggedInExplained(m: Manager, e: Event, r: Manager)
    requires !TakesToken(m, e)
    requires PluggedIn(m, r)
    ensures Steady(m, r) && QueuesExplained(m, e, r)
  {
  }

  lemma UnpluggedExplained(s: Saver, monitor: MonitorId, env: Env)
    requires SaverInv(s) && env.now == s.now
    ensures Explained(s, MonitorUnplugged(monitor), s.(m := MonitorRemoved(s.m, monitor, env)))
  {
    hide MonitorRemoved, Inv, Explained;
    MonitorRemovedKeeps(s.m, monitor, env);
    ManagerStep(s, MonitorUnplugged(monitor), MonitorRemoved(s.m, monitor, env));
  }

  lemma DialogOutputExplained(s: Saver, w: WindowId, line: DialogLine, env: Env)
    requires SaverInv(s)
    ensures Explained(s, DialogOutput(w, line), s.(m := LockCommandWatch(s.m, w, line, env)))
  {
    hide LockCommandWatch, Inv, Explained;
    var e := DialogOutput(w, line);
    var r := LockCommandWatch(s.m, w, line, env);
    LockCommandWatchKeeps(s.m, w, line, env, s.now);
    if r.out.windowIdles != s.m.out.windowIdles {
      assert QueuedOne(s.m, e, r.out.windowIdles);
    }
    ManagerStep(s, e, r);
  }

  lemma LockTimerExplained(s: Saver)
    requires SaverInv(s)
    ensures Explained(s, LockTimer, s.(m := LockTimerFires(s.m, s.now)))
  {
    hide LockTimerFires, Inv, Explained;
    LockTimerFiresKeeps(s.m, s.now);
    ManagerStep(s, LockTimer, LockTimerFires(s.m, s.now));
  }

  /** Steps that touch windows and jobs only. */
  lemma QuietExplained(s: Saver, e: Event, r: Manager)
    requires !TakesToken(s.m, e)
    requires SaverInv(s) && Inv(r, s.now) && SameShape(s.m, r)
    requires r.throttled == s.m.throttled && r.lockEnabled == s.m.lockEnabled && r.out == s.m.out
    ensures Explained(s, e, s.(m := r))
  {
    hide Inv, Explained;
    ManagerStep(s, e, r);
  }

  lemma WindowIdleKeeps(m: Manager, i: nat, now: nat)
    requires Inv(m, now)
    ensures Inv(EmitDeactivatedIdle(m, i), now) && SameShape(m, EmitDeactivatedIdle(m, i))
  {
    var r := EmitDeactivatedIdle(m, i);
    hide TableOk, DialogOk, SignalsOk, AllQuiet, ObscuredIn, Listed, Covered;
    assert Base(r) && SameShape(m, r);
    hide Base, Shape, MonitorsOk, TimersOk;
    ShapeKept(m, r, now);
  }

  lemma WindowIdleExplained(s: Saver, i: nat)
    requires SaverInv(s)
    ensures Explained(s, WindowDeactivatedIdle(i), s.(m := EmitDeactivatedIdle(s.m, i)))
  {
    hide Inv, Explained;
    WindowIdleKeeps(s.m, i, s.now);
    ManagerStep(s, WindowDeactivatedIdle(i), EmitDeactivatedIdle(s.m, i));
  }

  lemma TokenRemovedKeeps(m: Manager, i: nat, now: nat)
    requires Inv(m, now) && i < |m.out.managerIdles|
    ensures Inv(m.(out := m.out.(managerIdles := RemoveAt(m.out.managerIdles, i))), now)
  {
    var r := m.(out := m.out.(managerIdles := RemoveAt(m.out.managerIdles, i)));
    hide TableOk, DialogOk, SignalsOk, AllQuiet, ObscuredIn, Listed, Covered;
    assert Base(r) && SameShape(m, r);
    hide Base, Shape, MonitorsOk, TimersOk;
    ShapeKept(m, r, now);
  }

  // ----- Steps through the listener --------------------------------------------

  lemma ManagerIdleExplained(s: Saver, i: nat, t: Saver, env: Env)
    requires i < |s.m.out.managerIdles|
    requires t == s.(m := s.m.(out := s.m.out.(managerIdles := RemoveAt(s.m.out.managerIdles, i))))
    requires SaverInv(s) && env.now == s.now
    ensures Explained(s, ManagerDeactivatedIdle(i), ListenerSetActive(t, false, env).s)
  {
    hide Inv, ListenerSetActive, ListenerOk, RemoveAt;
    TokenRemovedKeeps(s.m, i, s.now);
    assert SaverInv(t);
    TurnOff(t, env);
    assert s.l.active == s.m.active;
    hide SaverInv;
  }

  lemma SetActiveExplained(s: Saver, active: bool, env: Env)
    requires SaverInv(s) && env.now == s.now
    ensures Explained(s, SetActiveRequest(active), ListenerSetActive(s, active, env).s)
  {
    hide Inv, ListenerSetActive, ListenerOk;
    if active {
      if s.l.active {
        AlreadyActive(s, env);
      } else {
        TurnOn(s, env);
      }
    } else {
      TurnOff(s, env);
    }
  }

  lemma LockRequestExplained(s: Saver, env: Env)
    requires SaverInv(s) && env.now == s.now
    ensures Explained(s, LockRequest, LockScreen(s, env))
  {
    LockScreenKeeps(s, env);
    hide Inv, ListenerOk, LockScreen;
  }

  lemma PrefsExplained(s: Saver, p: Prefs)
    requires SaverInv(s)
    ensures Explained(s, PrefsChanged(p), UpdateFromPrefs(s, p))
  {
    PrefsKeep(s, p);
    hide Inv, ListenerOk, UpdateFromPrefs;
  }

  lemma TimeExplained(s: Saver, ms: nat)
    requires SaverInv(s)
    ensures Explained(s, Advance(ms), s.(now := s.now + ms))
  {
    TimePasses(s.m, s.now, s.now + ms);
    hide Inv, LedgerOk, KeysOk;
  }

  ghost predicate GentleStep(s: Saver, r: Saver) {
    SaverInv(r) && Gentle(s, r)
  }

  /** Which listener operation a request is. */
  lemma RequestIs(s: Saver, e: Event, env: Env)
    requires env.now == s.now
    ensures match e
            case Inhibit(connection, cookie, answer) =>
              Step(s, e, env) == AddInhibitor(s, connection, cookie, answer, env)
            case UnInhibit(cookie, failed) => Step(s, e, env) == RemoveInhibitor(s, cookie, failed, env)
            case Throttle(connection, cookie) => Step(s, e, env) == AddThrottler(s, connection, cookie, env)
            case UnThrottle(cookie) => Step(s, e, env) == RemoveThrottler(s, cookie, env)
            case ConnectionLost(connection, failed) => Step(s, e, env) == ServiceDeleted(s, connection, failed, env)
            case _ => true
  {
    assert env.(now := s.now) == env;
  }

  lemma InhibitorsStep(s: Saver, e: Event, env: Env)
    requires env.now == s.now
    requires e.Inhibit? || e.UnInhibit? || e.Throttle? || e.UnThrottle? || e.ConnectionLost?
    requires SaverInv(s)
    ensures GentleStep(s, Step(s, e, env))
  {
    hide SaverInv, Gentle, Step, AddInhibitor, RemoveInhibitor, ServiceDeleted, AddThrottler, RemoveThrottler;
    RequestIs(s, e, env);
    match e
    case Inhibit(connection, cookie, answer) => InhibitKeeps(s, connection, cookie, answer, env);
    case UnInhibit(cookie, failed) => UnInhibitKeeps(s, cookie, failed, env);
    case Throttle(connection, cookie) => ThrottleOne(s, connection, cookie, env);
    case UnThrottle(cookie) => UnThrottleOne(s, cookie, env);
    case ConnectionLost(connection, failed) => ConnectionLostKeeps(s, connection, failed, env);
  }

  lemma InhibitorsExplained(s: Saver, e: Event, env: Env)
    requires SaverInv(s) && env.now == s.now
    requires e.Inhibit? || e.UnInhibit? || e.Throttle? || e.UnThrottle? || e.ConnectionLost?
    ensures Explained(s, e, Step(s, e, env))
  {
    hide SaverInv, Step, Gentle, Explained;
    InhibitorsStep(s, e, env);
    GentleExplained(s, e, Step(s, e, env));
  }

  lemma ThrottleOne(s: Saver, connection: string, cookie: nat, env: Env)
    requires SaverInv(s) && env.now == s.now
    ensures SaverInv(AddThrottler(s, connection, cookie, env)) && Gentle(s, AddThrottler(s, connection, cookie, env))
  {
    if FreshCookie(s.l.throttlers, cookie) {
      assert KeysOk(s.l.throttlers[cookie := Entry(cookie, connection, 0)]);
      hide SaverInv, CheckThrottle;
      ThrottleKeeps(s, s.l.throttlers[cookie := Entry(cookie, connection, 0)], env);
    } else {
      hide SaverInv;
    }
  }

  lemma UnThrottleOne(s: Saver, cookie: nat, env: Env)
    requires SaverInv(s) && env.now == s.now
    ensures SaverInv(RemoveThrottler(s, cookie, env)) && Gentle(s, RemoveThrottler(s, cookie, env))
  {
    if cookie in s.l.throttlers {
      assert KeysOk(s.l.throttlers - {cookie});
      hide SaverInv, CheckThrottle;
      ThrottleKeeps(s, s.l.throttlers - {cookie}, env);
    } else {
      hide SaverInv;
    }
  }

  lemma CycleExplained(s: Saver, env: Env)
    requires SaverInv(s) && env.now == s.now
    ensures Explained(s, CycleRequest, s.(m := Cycle(s.m, env)))
  {
    hide Inv, ListenerOk, Explained, SameShape, ApplyAll, JobOrder, WalkOf;
    CycleKeepsInv(s.m, env, s.now);
    QuietExplained(s, CycleRequest, Cycle(s.m, env));
  }

  lemma MappedExplained(s: Saver, w: WindowId, env: Env)
    requires SaverInv(s) && env.now == s.now
    ensures Explained(s, WindowMapped(w), s.(m := MapEvent(s.m, w, env)))
  {
    hide Inv, ListenerOk, Explained, SameShape, MaybeStart;
    MapEventKeeps(s.m, w, env, s.now);
    QuietExplained(s, WindowMapped(w), MapEvent(s.m, w, env));
  }

  lemma ChildrenExplained(s: Saver, e: Event, env: Env)
    requires SaverInv(s)
    requires e.JobOutputClosed? || e.ChildExited? || e.PopupIdle?
    ensures Explained(s, e, Step(s, e, env))
  {
    hide Inv, ListenerOk, Explained, SameShape, JobHup, ChildExits;
    match e
    case JobOutputClosed(w) =>
      JobWatchKeeps(s.m, w, s.now);
      QuietExplained(s, e, JobWatch(s.m, w));
    case ChildExited(pid) =>
      ChildExitKeeps(s.m, pid, s.now);
      QuietExplained(s, e, ChildExit(s.m, pid));
    case PopupIdle(w, spawned) =>
      PopupDialogIdleKeeps(s.m, w, spawned, s.now);
      QuietExplained(s, e, PopupDialogIdle(s.m, w, spawned));
  }

  lemma WatcherExplained(s: Saver, e: Event, env: Env)
    requires SaverInv(s) && env.now == s.now
    requires e.Presence? || e.IdleTimer?
    ensures Explained(s, e, Step(s, e, env))
  {
    assert env.(now := s.now) == env;
    hide SaverInv, Gentle, SetStatus, OnIdleTimeout, Explained;
    match e
    case Presence(status) =>
      PresenceKeeps(s, status, env);
      GentleExplained(s, e, SetStatus(s, status, env));
    case IdleTimer =>
      IdleTimeoutKeeps(s, env);
      GentleExplained(s, e, OnIdleTimeout(s, env));
  }

  lemma NothingExplained(s: Saver, e: Event)
    requires !TakesToken(s.m, e)
    requires SaverInv(s)
    ensures Explained(s, e, s)
  {
    hide Inv, ListenerOk;
  }

  /** Every callback, with every environment, keeps the invariant and does no more to
      activity, locking and the queues than the event explains. */
  lemma StepExplained(s: Saver, e: Event, env0: Env)
    requires SaverInv(s)
    ensures Explained(s, e, Step(s, e, env0))
  {
    var env := env0.(now := s.now);
    SameClock(s, e, env0);
    hide SaverInv, Explained, LockScreen, ListenerSetActive, AddInhibitor, RemoveInhibitor, AddThrottler,
         RemoveThrottler, ServiceDeleted, SetStatus, OnIdleTimeout, UpdateFromPrefs, LockTimerFires, Cycle,
         RequestUnlock, MonitorAdded, MonitorRemoved, MapEvent, SetObscured, JobWatch, ChildExit,
         PopupDialogIdle, LockCommandWatch, EmitDeactivatedIdle;
    match e
    case Advance(ms) => TimeExplained(s, ms);
    case LockRequest => LockRequestExplained(s, env); NothingExplained(s, e);
    case SetActiveRequest(active) => SetActiveExplained(s, active, env);
    case Inhibit(_, _, _) => InhibitorsExplained(s, e, env);
    case UnInhibit(_, _) => InhibitorsExplained(s, e, env);
    case Throttle(_, _) => InhibitorsExplained(s, e, env);
    case UnThrottle(_) => InhibitorsExplained(s, e, env);
    case ConnectionLost(_, _) => InhibitorsExplained(s, e, env);
    case Presence(_) => WatcherExplained(s, e, env);
    case IdleTimer => WatcherExplained(s, e, env);
    case PrefsChanged(prefs) => PrefsExplained(s, prefs);
    case LockTimer => LockTimerExplained(s);
    case CycleRequest => CycleExplained(s, env);
    case UserActivity => UserActivityExplained(s, env);
    case MonitorPlugged(monitor, at) => PluggedExplained(s, monitor, at, env);
    case MonitorUnplugged(monitor) => UnpluggedExplained(s, monitor, env);
    case WindowMapped(w) => MappedExplained(s, w, env);
    case WindowObscured(w, obscured) => ObscuredExplained(s, w, obscured, env);
    case JobOutputClosed(_) => ChildrenExplained(s, e, env);
    case ChildExited(_) => ChildrenExplained(s, e, env);
    case PopupIdle(_, _) => ChildrenExplained(s, e, env);
    case DialogOutput(w, line) => DialogOutputExplained(s, w, line, env);
    case WindowDeactivatedIdle(i) => WindowIdleExplained(s, i);
    case ManagerDeactivatedIdle(i) =>
      if i < |s.m.out.managerIdles| {
        var m := s.m.(out := s.m.out.(managerIdles := RemoveAt(s.m.out.managerIdles, i)));
        ManagerIdleExplained(s, i, s.(m := m), env);
      } else {
        NothingExplained(s, e);
      }
  }

  // ----- Runs ------------------------------------------------------------------

  /** The state before the `i`th callback of a run. */
  function At(s0: Saver, inputs: seq<Input>, i: nat): Saver
    requires i <= |inputs|
  {
    Run(s0, inputs[..i])
  }

  lemma FirstAt(s0: Saver, inputs: seq<Input>)
    ensures At(s0, inputs, 0) == s0
  {
    hide Step;
    assert inputs[..0] == [];
  }

  lemma NextAt(s0: Saver, inputs: seq<Input>, i: nat)
    requires i < |inputs|
    ensures At(s0, inputs, i + 1) == Step(At(s0, inputs, i), inputs[i].event, inputs[i].env)
  {
    var p := inputs[..i + 1];
    assert p[..i] == inputs[..i] && p[i] == inputs[i];
  }

  /** In every state of every run the components agree, there is one window, one job and
      at most one process per monitor, at most one dialog, no saver executes while
      throttled or under the dialog, and an unlocked saver has its lock timer in time. */
  lemma {:induction false} EveryStateOk(s0: Saver, inputs: seq<Input>, i: nat)
    requires SaverInv(s0) && i <= |inputs|
    ensures SaverInv(At(s0, inputs, i))
    decreases i
  {
    if i == 0 {
      assert inputs[..0] == [];
    } else {
      EveryStateOk(s0, inputs, i - 1);
      NextAt(s0, inputs, i - 1);
      StepExplained(At(s0, inputs, i - 1), inputs[i - 1].event, inputs[i - 1].env);
    }
  }
}
