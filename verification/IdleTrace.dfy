/** How the session can be idle while the saver is inactive: only because the idle timer
    fired with activation disabled. */
module IdleTrace {
  import opened ManagerModel
  import opened ScreensaverModel
  import opened ScreensaverProofs
  import opened ScreensaverRuns

  /** The session is idle, and the saver is not active. */
  predicate IdleOnly(l: Listener) {
    l.sessionIdle && !l.active
  }

  lemma ListenerIdle(s: Saver, active: bool, env: Env)
    ensures IdleOnly(ListenerSetActive(s, active, env).s.l) ==> IdleOnly(s.l)
  {
    hide SetActive, WatcherSetActive;
  }

  lemma CheckIdle(s: Saver, env: Env)
    ensures IdleOnly(CheckActivation(s, env).s.l) ==> IdleOnly(s.l)
  {
    hide ListenerSetActive;
    ListenerIdle(s, true, env);
  }

  /** The result of an activation decides: active, or not idle. */
  lemma ActivationSettles(s: Saver, env: Env)
    requires !s.l.active
    ensures var r := ListenerSetActive(s, true, env);
            r.ok == r.s.l.active
  {
    hide SetActive, WatcherSetActive;
  }

  lemma WatcherIdle(s: Saver, idle: bool, env: Env)
    requires s.l.active ==> s.l.sessionIdle
    ensures IdleOnly(WatcherSetIdle(s, idle, env).s.l) ==> IdleOnly(s.l) || (idle && !s.l.activationEnabled)
  {
    hide ListenerSetActive;
    ActivationSettles(s.(l := s.l.(sessionIdle := idle, active := false)), env);
  }

  lemma ThrottleIdle(s: Saver, env: Env)
    ensures IdleOnly(CheckThrottle(s, env).l) ==> IdleOnly(s.l)
  {
    hide SetThrottled;
  }

  lemma LedgerIdle(s: Saver, e: Event, env: Env)
    requires e.Inhibit? || e.UnInhibit? || e.Throttle? || e.UnThrottle? || e.ConnectionLost?
    requires env.now == s.now
    ensures IdleOnly(Step(s, e, env).l) ==> IdleOnly(s.l)
  {
    RequestIs(s, e, env);
    hide Step, CheckActivation, CheckThrottle, DropInhibitors, ForeignCookie, FreshCookie, OfConnection;
    match e
    case Inhibit(connection, cookie, answer) =>
      var f := ForeignCookie(s.l, answer);
      CheckIdle(s.(l := Inhibited(s.l, connection, cookie, f)), env);
    case UnInhibit(cookie, failed) => DroppedIdle(s, {cookie}, failed, env);
    case Throttle(connection, cookie) =>
      ThrottleIdle(s.(l := s.l.(throttlers := s.l.throttlers[cookie := Entry(cookie, connection, 0)])), env);
    case UnThrottle(cookie) => ThrottleIdle(s.(l := s.l.(throttlers := s.l.throttlers - {cookie})), env);
    case ConnectionLost(connection, failed) =>
      ThrottleIdle(s.(l := s.l.(throttlers := s.l.throttlers - OfConnection(s.l.throttlers, connection))), env);
      var s1 := ThrottlersGone(s, connection, env);
      DroppedIdle(s1, OfConnection(s1.l.inhibitors, connection), failed, env);
  }

  lemma DroppedIdle(s: Saver, cookies: set<nat>, failed: set<nat>, env: Env)
    ensures IdleOnly(CheckActivation(s.(l := DropInhibitors(s.l, cookies, failed)), env).s.l) ==> IdleOnly(s.l)
  {
    hide CheckActivation, Foreigns;
    CheckIdle(s.(l := DropInhibitors(s.l, cookies, failed)), env);
  }

  lemma LockIdle(s: Saver, env: Env)
    ensures IdleOnly(LockScreen(s, env).l) ==> IdleOnly(s.l)
  {
    hide ListenerSetActive, SetLockActive;
    ListenerIdle(s.(m := SetLockActive(s.m, true)), true, env);
  }

  lemma WatcherEventIdle(s: Saver, e: Event, env: Env)
    requires e.Presence? || e.IdleTimer?
    requires env.now == s.now && (s.l.active ==> s.l.sessionIdle)
    ensures IdleOnly(Step(s, e, env).l) ==> IdleOnly(s.l) || (e.IdleTimer? && !s.l.activationEnabled)
  {
    assert env.(now := s.now) == env;
    hide WatcherSetIdle;
    match e
    case Presence(_) => WatcherIdle(s.(w := s.w.(idleTimer := false)), false, env);
    case IdleTimer => WatcherIdle(s, true, env);
  }

  lemma RequestIdle(s: Saver, e: Event, env: Env)
    requires e.LockRequest? || e.SetActiveRequest? || e.ManagerDeactivatedIdle?
    ensures IdleOnly(Step(s, e, env).l) ==> IdleOnly(s.l)
  {
    hide LockScreen, ListenerSetActive, RemoveAt;
    var env1 := env.(now := s.now);
    match e
    case LockRequest => LockIdle(s, env1);
    case SetActiveRequest(active) => ListenerIdle(s, active, env1);
    case ManagerDeactivatedIdle(i) =>
      if i < |s.m.out.managerIdles| {
        ListenerIdle(s.(m := s.m.(out := s.m.out.(managerIdles := RemoveAt(s.m.out.managerIdles, i)))), false, env1);
      }
  }

  /** Callbacks that leave the listener's flags alone. */
  lemma OtherIdle(s: Saver, e: Event, env: Env)
    requires !e.Inhibit? && !e.UnInhibit? && !e.Throttle? && !e.UnThrottle? && !e.ConnectionLost?
    requires !e.Presence? && !e.IdleTimer? && !e.LockRequest? && !e.SetActiveRequest? && !e.ManagerDeactivatedIdle?
    ensures IdleOnly(Step(s, e, env).l) == IdleOnly(s.l)
  {
    hide LockTimerFires, Cycle, RequestUnlock, MonitorAdded, MonitorRemoved, MapEvent, SetObscured,
         JobWatch, ChildExit, PopupDialogIdle, LockCommandWatch, EmitDeactivatedIdle,
         SetLockTimeout, SetCycleTimeout, WatcherSetActive, Clamp;
  }

  lemma IdleEntered(s: Saver, e: Event, env0: Env)
    requires s.l.active ==> s.l.sessionIdle
    requires IdleOnly(Step(s, e, env0).l) && !IdleOnly(s.l)
    ensures e.IdleTimer? && !s.l.activationEnabled
  {
    SameClock(s, e, env0);
    var env := env0.(now := s.now);
    hide Step, IdleOnly;
    if e.Inhibit? || e.UnInhibit? || e.Throttle? || e.UnThrottle? || e.ConnectionLost? {
      LedgerIdle(s, e, env);
    } else if e.Presence? || e.IdleTimer? {
      WatcherEventIdle(s, e, env);
    } else if e.LockRequest? || e.SetActiveRequest? || e.ManagerDeactivatedIdle? {
      RequestIdle(s, e, env);
    } else {
      OtherIdle(s, e, env);
    }
  }

  ghost predicate IdleSince(s0: Saver, inputs: seq<Input>, j: nat, i: nat)
    requires j <= i <= |inputs|
  {
    forall k {:trigger At(s0, inputs, k)} :: j < k <= i ==> IdleOnly(At(s0, inputs, k).l)
  }

  /** Callback `j` was the idle timer, found activation disabled and made the session idle. */
  ghost predicate IdlesAt(s0: Saver, inputs: seq<Input>, j: nat)
    requires j < |inputs|
  {
    inputs[j].event.IdleTimer? && !At(s0, inputs, j).l.activationEnabled && !IdleOnly(At(s0, inputs, j).l)
  }

  /** An idle session without an active saver was entered by the idle timer with activation
      disabled, and has been idle and inactive ever since. */
  lemma {:induction false} IdleOnlyTrace(s0: Saver, inputs: seq<Input>, i: nat) returns (j: nat)
    requires SaverInv(s0) && !IdleOnly(s0.l) && i <= |inputs|
    requires IdleOnly(At(s0, inputs, i).l)
    ensures j < i && IdlesAt(s0, inputs, j) && IdleSince(s0, inputs, j, i)
    decreases i
  {
    hide At, SaverInv, IdleOnly, Step;
    FirstAt(s0, inputs);
    EveryStateOk(s0, inputs, i - 1);
    NextAt(s0, inputs, i - 1);
    if IdleOnly(At(s0, inputs, i - 1).l) {
      j := IdleOnlyTrace(s0, inputs, i - 1);
    } else {
      j := i - 1;
      ActiveIsIdle(At(s0, inputs, j));
      IdleEntered(At(s0, inputs, j), inputs[j].event, inputs[j].env);
    }
  }

  lemma ActiveIsIdle(s: Saver)
    requires SaverInv(s)
    ensures s.l.active ==> s.l.sessionIdle
  {
    assert ListenerOk(s.l, s.now);
  }
}
