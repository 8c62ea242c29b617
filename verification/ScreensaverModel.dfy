/** The screensaver as a whole: the D-Bus listener, the idle watcher and the manager,
    joined by the monitor's callbacks.  Signals have one handler each, so emitting one
    is a call; the calls re-enter (the watcher's idle timer reaches the listener, the
    manager and the watcher again). */
module ScreensaverModel {
  import opened JobTable
  import opened ManagerModel

  // ----- Components ------------------------------------------------------------

  /** An inhibitor or throttler.  `foreign` is the session manager's cookie for a
      proxied inhibit, zero if there is none. */
  datatype Entry = Entry(cookie: nat, connection: string, foreign: nat)

  datatype Listener = Listener(
    sessionIdle: bool,
    active: bool,
    activationEnabled: bool,
    throttled: bool,
    inhibitors: map<nat, Entry>,
    throttlers: map<nat, Entry>,
    activeStart: int,
    idleStart: int,
    session: set<nat>,            // inhibits the session manager holds for us
    leaked: set<nat>,             // history: those whose release call failed
    idleWhileDisabled: bool)      // history: idleness was entered with activation disabled

  datatype Watcher = Watcher(enabled: bool, active: bool, idle: bool, idleNotice: bool, idleTimer: bool)

  datatype Prefs = Prefs(
    lockEnabled: bool,
    lockDisabled: bool,
    lockMinutes: int,
    cycleMinutes: int,
    idleActivation: bool)

  datatype Saver = Saver(l: Listener, w: Watcher, m: Manager, now: nat, lockDisabled: bool)

  datatype Result = Result(s: Saver, ok: bool)

  const MAX_COOKIE: nat := 0x7FFF_FFFF

  // ----- Listener --------------------------------------------------------------

  function SetIdleInternal(l: Listener, idle: bool, now: nat): Listener {
    l.(sessionIdle := idle, idleStart := if idle then now / 1000 else 0,
       idleWhileDisabled := if idle then !l.activationEnabled else false)
  }

  function SetActiveInternal(l: Listener, active: bool, now: nat): Listener {
    var l1 := l.(active := active);
    var l2 := if l1.sessionIdle != active then SetIdleInternal(l1, active, now) else l1;
    l2.(activeStart := if active then now / 1000 else 0)
  }

  /** The monitor's handler of "active-changed". */
  function ActiveChanged(s: Saver, active: bool, env: Env): Result {
    var r := SetActive(s.m, active, env);
    if !r.ok then Result(s.(m := r.m), false)
    else Result(s.(m := r.m, w := if s.w.enabled then WatcherSetActive(s.w, !active) else s.w), true)
  }

  function ListenerSetActive(s: Saver, active: bool, env: Env): Result {
    if s.l.active == active then Result(s, false)
    else
      var r := ActiveChanged(s, active, env);
      if !r.ok then
        Result(if active then r.s.(l := SetIdleInternal(r.s.l, false, s.now)) else r.s, false)
      else Result(r.s.(l := SetActiveInternal(r.s.l, active, s.now)), true)
  }

  function CheckActivation(s: Saver, env: Env): Result {
    if !s.l.activationEnabled || !s.l.sessionIdle then Result(s, true)
    else if s.l.inhibitors != map[] then Result(s, false)
    else ListenerSetActive(s, true, env)
  }

  function ListenerSetSessionIdle(s: Saver, idle: bool, env: Env): Result {
    if s.l.sessionIdle == idle then Result(s, false)
    else if idle && s.l.inhibitors != map[] then Result(s, false)
    else
      var r := CheckActivation(s.(l := s.l.(sessionIdle := idle)), env);
      if r.ok then Result(r.s.(l := SetIdleInternal(r.s.l, idle, s.now)), true)
      else Result(r.s.(l := r.s.l.(sessionIdle := !idle)), false)
  }

  function CheckThrottle(s: Saver, env: Env): Saver {
    var throttled := s.l.throttlers != map[];
    if throttled == s.l.throttled then s
    else s.(l := s.l.(throttled := throttled), m := SetThrottled(s.m, throttled, env))
  }

  predicate FreshCookie(table: map<nat, Entry>, cookie: nat) {
    0 < cookie < MAX_COOKIE && cookie !in table
  }

  /** The session manager's answer to a proxied inhibit: a fresh cookie, or failure. */
  function ForeignCookie(l: Listener, answer: nat): nat {
    if answer in l.session then 0 else answer
  }

  function AddInhibitor(s: Saver, connection: string, cookie: nat, answer: nat, env: Env): Saver {
    if !FreshCookie(s.l.inhibitors, cookie) then s
    else
      var f := ForeignCookie(s.l, answer);
      var l := s.l.(inhibitors := s.l.inhibitors[cookie := Entry(cookie, connection, f)],
                    session := if f == 0 then s.l.session else s.l.session + {f});
      CheckActivation(s.(l := l), env).s
  }

  function AddThrottler(s: Saver, connection: string, cookie: nat, env: Env): Saver {
    if !FreshCookie(s.l.throttlers, cookie) then s
    else
      var l := s.l.(throttlers := s.l.throttlers[cookie := Entry(cookie, connection, 0)]);
      CheckThrottle(s.(l := l), env)
  }

  function Foreigns(table: map<nat, Entry>, cookies: set<nat>): set<nat> {
    set c | c in table && c in cookies && table[c].foreign != 0 :: table[c].foreign
  }

  /** Removing inhibitors gives their proxied inhibits back; a failed call leaves one with
      the session manager. */
  function DropInhibitors(l: Listener, cookies: set<nat>, failed: set<nat>): Listener {
    var back := Foreigns(l.inhibitors, cookies);
    l.(inhibitors := l.inhibitors - cookies, session := l.session - (back - failed), leaked := l.leaked + back * failed)
  }

  function RemoveInhibitor(s: Saver, cookie: nat, failed: set<nat>, env: Env): Saver {
    if cookie !in s.l.inhibitors then s
    else CheckActivation(s.(l := DropInhibitors(s.l, {cookie}, failed)), env).s
  }

  function RemoveThrottler(s: Saver, cookie: nat, env: Env): Saver {
    if cookie !in s.l.throttlers then s
    else CheckThrottle(s.(l := s.l.(throttlers := s.l.throttlers - {cookie})), env)
  }

  function OfConnection(table: map<nat, Entry>, connection: string): set<nat> {
    set c | c in table && table[c].connection == connection
  }

  /** Losing a connection: first its throttlers go, then its inhibitors. */
  function ThrottlersGone(s: Saver, connection: string, env: Env): Saver {
    var throttles := OfConnection(s.l.throttlers, connection);
    if throttles == {} then s else CheckThrottle(s.(l := s.l.(throttlers := s.l.throttlers - throttles)), env)
  }

  function InhibitorsGone(s: Saver, connection: string, failed: set<nat>, env: Env): Saver {
    var inhibits := OfConnection(s.l.inhibitors, connection);
    if inhibits == {} then s else CheckActivation(s.(l := DropInhibitors(s.l, inhibits, failed)), env).s
  }

  function ServiceDeleted(s: Saver, connection: string, failed: set<nat>, env: Env): Saver {
    InhibitorsGone(ThrottlersGone(s, connection, env), connection, failed, env)
  }

  // ----- Watcher ---------------------------------------------------------------

  function WatcherSetActive(w: Watcher, active: bool): Watcher {
    if w.active == active || !w.enabled then w
    else w.(idle := false, idleNotice := false, active := active)
  }

  function WatcherSetIdle(s: Saver, idle: bool, env: Env): Result {
    if idle == s.w.idle then Result(s, false)
    else
      var r := ListenerSetSessionIdle(s, idle, env);
      if r.ok then Result(r.s.(w := r.s.w.(idle := idle)), true) else Result(r.s, false)
  }

  /** The idle notice is refused while activation is disabled or inhibited. */
  function WatcherSetNotice(s: Saver, notice: bool): Saver {
    if notice == s.w.idleNotice then s
    else if notice && !(s.l.activationEnabled && s.l.inhibitors == map[]) then s
    else s.(w := s.w.(idleNotice := notice))
  }

  function OnIdleTimeout(s: Saver, env: Env): Saver {
    if !s.w.idleTimer then s
    else
      var r := WatcherSetIdle(s, true, env);
      var s1 := WatcherSetNotice(r.s, false);
      if r.ok then s1.(w := s1.w.(idleTimer := false)) else s1
  }

  function SetStatus(s: Saver, status: nat, env: Env): Saver {
    if !s.w.active then s
    else if status == 3 then
      var s1 := WatcherSetNotice(s, true);
      s1.(w := s1.w.(idleTimer := true))
    else if !s.w.idleNotice then s
    else
      var s1 := s.(w := s.w.(idleTimer := false));
      WatcherSetNotice(WatcherSetIdle(s1, false, env).s, false)
  }

  // ----- Monitor ---------------------------------------------------------------

  function LockScreen(s: Saver, env: Env): Saver {
    var locked := s.m.lockActive;
    var s1 := s.(m := SetLockActive(s.m, true));
    if s1.m.active then s1
    else
      var r := ListenerSetActive(s1, true, env);
      if r.ok then r.s else r.s.(m := SetLockActive(r.s.m, locked))
  }

  function Clamp(lo: int, v: int, hi: int): int {
    if v < lo then lo else if v > hi then hi else v
  }

  function UpdateFromPrefs(s: Saver, p: Prefs): Saver {
    var m1 := SetLockEnabled(s.m, p.lockEnabled && !p.lockDisabled);
    var m2 := SetLockTimeout(m1, Clamp(0, p.lockMinutes, 480) * 60000, s.now);
    var m3 := SetCycleTimeout(m2, Clamp(1, p.cycleMinutes, 480) * 60000);
    var w1 := s.w.(enabled := true);
    Saver(s.l.(activationEnabled := p.idleActivation),
          if !m3.active && !w1.active then WatcherSetActive(w1, true) else w1,
          m3, s.now, p.lockDisabled)
  }

  // ----- Events ----------------------------------------------------------------

  /** One per top-level main-loop callback (plus the passing of time). */
  datatype Event =
    | Advance(ms: nat)
    | LockRequest
    | SetActiveRequest(active: bool)       // SetActive, Unlock and Quit
    | Inhibit(connection: string, cookie: nat, answer: nat)
    | UnInhibit(cookie: nat, failed: set<nat>)
    | Throttle(connection: string, cookie: nat)
    | UnThrottle(cookie: nat)
    | ConnectionLost(connection: string, failed: set<nat>)
    | Presence(status: nat)
    | IdleTimer
    | PrefsChanged(prefs: Prefs)
    | LockTimer
    | CycleRequest                         // the Cycle method and the cycle timer
    | UserActivity                         // key, pointer, simulated activity, messages
    | MonitorPlugged(monitor: MonitorId, at: nat)
    | MonitorUnplugged(monitor: MonitorId)
    | WindowMapped(window: WindowId)
    | WindowObscured(window: WindowId, obscured: bool)
    | JobOutputClosed(window: WindowId)
    | ChildExited(pid: nat)
    | PopupIdle(window: WindowId, spawned: bool)
    | DialogOutput(window: WindowId, line: DialogLine)
    | WindowDeactivatedIdle(index: nat)
    | ManagerDeactivatedIdle(index: nat)

  function Step(s: Saver, e: Event, env0: Env): Saver {
    var env := env0.(now := s.now);
    match e
    case Advance(ms) => s.(now := s.now + ms)
    case LockRequest => if s.lockDisabled then s else LockScreen(s, env)
    case SetActiveRequest(active) => ListenerSetActive(s, active, env).s
    case Inhibit(connection, cookie, answer) => AddInhibitor(s, connection, cookie, answer, env)
    case UnInhibit(cookie, failed) => RemoveInhibitor(s, cookie, failed, env)
    case Throttle(connection, cookie) => AddThrottler(s, connection, cookie, env)
    case UnThrottle(cookie) => RemoveThrottler(s, cookie, env)
    case ConnectionLost(connection, failed) => ServiceDeleted(s, connection, failed, env)
    case Presence(status) => SetStatus(s, status, env)
    case IdleTimer => OnIdleTimeout(s, env)
    case PrefsChanged(prefs) => UpdateFromPrefs(s, prefs)
    case LockTimer => s.(m := LockTimerFires(s.m, s.now))
    case CycleRequest => s.(m := Cycle(s.m, env))
    case UserActivity => s.(m := RequestUnlock(s.m, env))
    case MonitorPlugged(monitor, at) => s.(m := MonitorAdded(s.m, monitor, at, env))
    case MonitorUnplugged(monitor) => s.(m := MonitorRemoved(s.m, monitor, env))
    case WindowMapped(w) => s.(m := MapEvent(s.m, w, env))
    case WindowObscured(w, obscured) => s.(m := SetObscured(s.m, w, obscured, env))
    case JobOutputClosed(w) => s.(m := JobWatch(s.m, w))
    case ChildExited(pid) => s.(m := ChildExit(s.m, pid))
    case PopupIdle(w, spawned) => s.(m := PopupDialogIdle(s.m, w, spawned))
    case DialogOutput(w, line) => s.(m := LockCommandWatch(s.m, w, line, env))
    case WindowDeactivatedIdle(i) => s.(m := EmitDeactivatedIdle(s.m, i))
    case ManagerDeactivatedIdle(i) =>
      if i >= |s.m.out.managerIdles| then s
      else
        var m := s.m.(out := s.m.out.(managerIdles := RemoveAt(s.m.out.managerIdles, i)));
        ListenerSetActive(s.(m := m), false, env).s
  }

  /** The state once the monitor object has been built and the preferences applied. */
  function Start(monitors: seq<MonitorId>, prefs: Prefs, now: nat): Saver {
    var l := Listener(false, false, false, false, map[], map[], 0, 0, {}, {}, false);
    UpdateFromPrefs(Saver(l, Watcher(true, false, false, false, false), Initial(monitors), now, false), prefs)
  }

  datatype Input = Input(event: Event, env: Env)

  function Run(s: Saver, inputs: seq<Input>): Saver {
    if inputs == [] then s
    else
      var k := |inputs| - 1;
      Step(Run(s, inputs[..k]), inputs[k].event, inputs[k].env)
  }

  /** A callback reads the clock of the state, whatever the environment says. */
  lemma SameClock(s: Saver, e: Event, env: Env)
    ensures Step(s, e, env) == Step(s, e, env.(now := s.now))
  {
    assert env.(now := s.now).(now := s.now) == env.(now := s.now);
  }

  // ----- Callbacks of the manager ------------------------------------------------

  predicate OfWindow(e: Event) {
    e.WindowMapped? || e.WindowObscured? || e.JobOutputClosed? || e.PopupIdle? || e.DialogOutput?
  }

  /** Callbacks that end in the manager. */
  predicate OfManager(e: Event) {
    || OfWindow(e)
    || e.LockTimer? || e.CycleRequest? || e.UserActivity? || e.MonitorPlugged? || e.MonitorUnplugged?
    || e.ChildExited? || e.WindowDeactivatedIdle?
  }

  /** What the manager does in a callback that ends there. */
  function InManager(m: Manager, e: Event, env: Env): Manager
    requires OfManager(e)
  {
    match e
    case LockTimer => LockTimerFires(m, env.now)
    case CycleRequest => Cycle(m, env)
    case UserActivity => RequestUnlock(m, env)
    case MonitorPlugged(monitor, at) => MonitorAdded(m, monitor, at, env)
    case MonitorUnplugged(monitor) => MonitorRemoved(m, monitor, env)
    case ChildExited(pid) => ChildExit(m, pid)
    case WindowDeactivatedIdle(i) => EmitDeactivatedIdle(m, i)
    case WindowMapped(w) => MapEvent(m, w, env)
    case WindowObscured(w, obscured) => SetObscured(m, w, obscured, env)
    case JobOutputClosed(w) => JobWatch(m, w)
    case PopupIdle(w, spawned) => PopupDialogIdle(m, w, spawned)
    case DialogOutput(w, line) => LockCommandWatch(m, w, line, env)
  }

  lemma StepInManager(s: Saver, e: Event, env: Env)
    requires OfManager(e)
    ensures Step(s, e, env) == s.(m := InManager(s.m, e, env.(now := s.now)))
  {
    hide LockTimerFires, Cycle, RequestUnlock, MonitorAdded, MonitorRemoved, MapEvent, SetObscured,
         JobWatch, ChildExit, PopupDialogIdle, LockCommandWatch, EmitDeactivatedIdle;
  }
}
