/** What the manager and its windows do, as functions on values: activation, the lock
    timer, the unlock dialog, monitor hot-plug and the events of windows and jobs.
    The class in Manager.dfy performs these steps in place. */
module ManagerModel {
  import opened Options
  import opened Jobs
  import opened JobTable

  type MonitorId = nat

  /** A window of the saver.  `lockWatch` is the stored watch id, `lockSource` whether
      that source is still attached to the main loop; `okResponse` is whether the last
      RESPONSE line the window received was OK.  No code resets it, but it is only ever set
      while the deactivation that it caused is queued (module LockHolds). */
  datatype Window = Window(
    monitor: MonitorId,
    visible: bool,
    sensitive: bool,
    obscured: bool,
    dialogUp: bool,
    lockEnabled: bool,
    popupIdle: bool,
    lockWatch: bool,
    lockSource: bool,
    okResponse: bool)

  datatype AuthSignal = RequestBegin | RequestEnd

  /** Why a deactivation was queued by a window. */
  datatype Cause = DialogSaidOk | WindowNotLocked
  datatype Token = Token(window: WindowId, cause: Cause)

  datatype Timers = Timers(
    lockTimeout: int,             // milliseconds
    cycleTimeout: int,            // milliseconds
    activateTime: int,            // seconds
    lockTimer: Option<int>,       // due time in milliseconds
    cycleTimer: bool,
    lapsed: bool)                 // history: the timeout ran out while locking was disabled

  datatype Outbox = Outbox(
    signals: seq<AuthSignal>,     // history of AUTH_REQUEST signals
    windowIdles: seq<Token>,      // queued emit_deactivated_idle
    managerIdles: seq<Token>)     // queued window_deactivated_idle

  datatype Manager = Manager(
    monitors: seq<MonitorId>,
    windows: seq<WindowId>,
    win: map<WindowId, Window>,
    nextWindow: nat,
    hasJobs: bool,
    table: Table,
    active: bool,
    lockActive: bool,
    lockEnabled: bool,
    throttled: bool,
    dialogUp: bool,
    timers: Timers,
    out: Outbox)

  /** Everything one main-loop callback learns from outside. */
  datatype Env = Env(
    now: nat,                     // milliseconds
    grab: bool,
    pointer: MonitorId,
    order: seq<WindowId>,         // how the hash table lists its keys
    spawns: Spawns)

  datatype Outcome = Outcome(m: Manager, ok: bool)

  // ----- Walking the jobs ------------------------------------------------------

  function ObscuredIn(win: map<WindowId, Window>): set<WindowId> {
    set w | w in win && win[w].obscured
  }

  function Obscured(m: Manager): set<WindowId> {
    ObscuredIn(m.win)
  }

  function WalkOf(m: Manager, env: Env): Walk {
    Walk(m.dialogUp || m.throttled, Obscured(m), env.spawns)
  }

  function JobOrder(m: Manager, env: Env): seq<WindowId> {
    if Enumerates(env.order, m.table.jobs.Keys) then env.order else m.windows
  }

  function WalkJobs(m: Manager, op: JobOp, env: Env): Manager {
    if m.hasJobs then m.(table := ApplyAll(m.table, op, JobOrder(m, env), WalkOf(m, env))) else m
  }

  // ----- Locking ---------------------------------------------------------------

  function WithLockEnabled(win: map<WindowId, Window>, ws: seq<WindowId>, locked: bool): map<WindowId, Window> {
    map w | w in win :: if w in ws then win[w].(lockEnabled := locked) else win[w]
  }

  function SetLockActive(m: Manager, locked: bool): Manager {
    if m.lockActive == locked then m
    else m.(lockActive := locked, win := WithLockEnabled(m.win, m.windows, locked))
  }

  function SetLockEnabled(m: Manager, enabled: bool): Manager {
    m.(lockEnabled := enabled)
  }

  function ActivateLockTimeout(m: Manager): Manager {
    var m1 := if m.lockEnabled then SetLockActive(m, true) else m;
    m1.(timers := m1.timers.(lockTimer := None, lapsed := !m.lockEnabled))
  }

  function AddLockTimer(m: Manager, interval: int, now: nat): Manager {
    m.(timers := m.timers.(lockTimer := Some(now + interval), lapsed := false))
  }

  function Elapsed(m: Manager, now: nat): int {
    (now / 1000 - m.timers.activateTime) * 1000
  }

  function SetLockTimeout(m: Manager, lockTimeout: int, now: nat): Manager {
    if m.timers.lockTimeout == lockTimeout then m
    else
      var m1 := m.(timers := m.timers.(lockTimeout := lockTimeout));
      if m.active && !m.lockActive && lockTimeout >= 0 then
        if Elapsed(m, now) >= lockTimeout then ActivateLockTimeout(m1)
        else AddLockTimer(m1, lockTimeout - Elapsed(m, now), now)
      else m1
  }

  /** The lock timer is dispatched once it is due. */
  function LockTimerFires(m: Manager, now: nat): Manager {
    if m.timers.lockTimer.Some? && m.timers.lockTimer.value <= now then ActivateLockTimeout(m) else m
  }

  function SetCycleTimeout(m: Manager, cycleTimeout: int): Manager {
    if m.timers.cycleTimeout == cycleTimeout then m
    else m.(timers := m.timers.(cycleTimeout := cycleTimeout,
                                cycleTimer := m.timers.cycleTimer || (m.active && cycleTimeout >= 0)))
  }

  // ----- The dialog ------------------------------------------------------------

  function WithSensitive(win: map<WindowId, Window>, ws: seq<WindowId>, except: WindowId): map<WindowId, Window> {
    map w | w in win :: if w in ws && w != except then win[w].(sensitive := false) else win[w]
  }

  function AllSensitive(win: map<WindowId, Window>, ws: seq<WindowId>): map<WindowId, Window> {
    map w | w in win :: if w in ws then win[w].(sensitive := true) else win[w]
  }

  function Emit(m: Manager, s: AuthSignal): Manager {
    m.(out := m.out.(signals := m.out.signals + [s]))
  }

  function HandleDialogUp(m: Manager, w: WindowId, env: Env): (r: Manager)
    ensures r.win.Keys == m.win.Keys
  {
    var m1 := Emit(m, RequestBegin).(dialogUp := true, win := WithSensitive(m.win, m.windows, w));
    if m1.throttled then m1 else WalkJobs(m1, OpSuspend, env)
  }

  function HandleDialogDown(m: Manager, env: Env): (r: Manager)
    ensures r.win.Keys == m.win.Keys
  {
    var m1 := m.(win := AllSensitive(m.win, m.windows), dialogUp := false);
    var m2 := if m1.throttled then m1 else WalkJobs(m1, OpResume, env);
    Emit(m2, RequestEnd)
  }

  function SetDialogUp(m: Manager, w: WindowId, up: bool, env: Env): (r: Manager)
    requires w in m.win
    ensures r.win.Keys == m.win.Keys
  {
    if m.win[w].dialogUp == up then m
    else
      var m1 := m.(win := m.win[w := m.win[w].(dialogUp := up)]);
      if up then HandleDialogUp(m1, w, env) else HandleDialogDown(m1, env)
  }

  function Popdown(m: Manager, w: WindowId, env: Env): (r: Manager)
    ensures r.win.Keys == m.win.Keys
  {
    if w !in m.win then m
    else
      var m1 := SetDialogUp(m, w, false, env);
      m1.(win := m1.win[w := m1.win[w].(popupIdle := false, lockWatch := false, lockSource := false)])
  }

  function PopdownAll(m: Manager, ws: seq<WindowId>, env: Env): (r: Manager)
    ensures r.win.Keys == m.win.Keys
    decreases |ws|
  {
    if ws == [] then m else PopdownAll(Popdown(m, ws[0], env), ws[1..], env)
  }

  function QueueDeactivation(m: Manager, w: WindowId, cause: Cause): Manager {
    m.(out := m.out.(windowIdles := m.out.windowIdles + [Token(w, cause)]))
  }

  function RequestUnlockWindow(m: Manager, w: WindowId, env: Env): Manager {
    if w !in m.win || !m.win[w].visible || m.win[w].lockWatch then m
    else if !m.win[w].lockEnabled then QueueDeactivation(m, w, WindowNotLocked)
    else SetDialogUp(m.(win := m.win[w := m.win[w].(popupIdle := true)]), w, true, env)
  }

  predicate OnMonitor(m: Manager, w: WindowId, monitor: MonitorId) {
    w in m.win && m.win[w].monitor == monitor
  }

  /** None of the windows from place `i` up to place `n` is on the monitor. */
  predicate NoneFrom(m: Manager, monitor: MonitorId, i: nat, n: nat)
    requires n <= |m.windows|
  {
    forall k :: i <= k < n ==> !OnMonitor(m, m.windows[k], monitor)
  }

  /** Among the first `n` windows `w` is on the pointer's monitor and none after it is; or
      none at all is, and `w` is the first window. */
  predicate AtPointer(m: Manager, pointer: MonitorId, n: nat, w: WindowId)
    requires n <= |m.windows| && m.windows != []
  {
    if NoneFrom(m, pointer, 0, n) then w == m.windows[0]
    else OnMonitor(m, w, pointer) && exists i :: 0 <= i < n && m.windows[i] == w && NoneFrom(m, pointer, i + 1, n)
  }

  /** The last window on the pointer's monitor, or the first window of all. */
  function WindowAtPointer(m: Manager, pointer: MonitorId, n: nat): WindowId
    requires n <= |m.windows| && m.windows != []
    decreases n
  {
    if n == 0 then m.windows[0]
    else if m.windows[n - 1] in m.win && m.win[m.windows[n - 1]].monitor == pointer then m.windows[n - 1]
    else WindowAtPointer(m, pointer, n - 1)
  }

  function RequestUnlock(m: Manager, env: Env): Manager {
    if !m.active || m.dialogUp || m.windows == [] then m
    else RequestUnlockWindow(m, WindowAtPointer(m, env.pointer, |m.windows|), env)
  }

  /** The idle callback that spawns the dialog; without it nothing is pending. */
  function PopupDialogIdle(m: Manager, w: WindowId, spawned: bool): Manager {
    if w !in m.win || !m.win[w].popupIdle then m
    else m.(win := m.win[w := m.win[w].(popupIdle := false,
                                        lockWatch := m.win[w].lockWatch || spawned,
                                        lockSource := m.win[w].lockSource || spawned)])
  }

  /** What the watch on the dialog's output may see. */
  datatype DialogLine = ResponseOk | ResponseCancel | EndOfOutput | ReadError | OtherLine

  function LockCommandWatch(m: Manager, w: WindowId, line: DialogLine, env: Env): Manager {
    if w !in m.win || !m.win[w].lockSource then m
    else
      match line
      case OtherLine => m
      case ReadError => m.(win := m.win[w := m.win[w].(lockSource := false)])
      case EndOfOutput => FinishDialog(m, w, env)
      case ResponseOk => FinishDialog(m.(win := m.win[w := m.win[w].(okResponse := true)]), w, env)
      case ResponseCancel => FinishDialog(m.(win := m.win[w := m.win[w].(okResponse := false)]), w, env)
  }

  function FinishDialog(m: Manager, w: WindowId, env: Env): Manager
    requires w in m.win
  {
    var m1 := Popdown(m, w, env);
    if m1.win[w].okResponse then QueueDeactivation(m1, w, DialogSaidOk) else m1
  }

  function RemoveAt(q: seq<Token>, i: nat): seq<Token>
    requires i < |q|
  {
    q[..i] + q[i + 1..]
  }

  /** A window's deferred "deactivated" signal: the manager defers once more. */
  function EmitDeactivatedIdle(m: Manager, i: nat): Manager {
    if i >= |m.out.windowIdles| then m
    else
      var t := m.out.windowIdles[i];
      m.(out := m.out.(windowIdles := RemoveAt(m.out.windowIdles, i),
                       managerIdles := if t.window in m.win then m.out.managerIdles + [t] else m.out.managerIdles))
  }

  // ----- Windows and jobs ------------------------------------------------------

  function MapEvent(m: Manager, w: WindowId, env: Env): Manager {
    if w !in m.win then m else m.(table := MaybeStart(m.table, w, WalkOf(m, env)))
  }

  function SetObscured(m: Manager, w: WindowId, obscured: bool, env: Env): Manager {
    if w !in m.win || m.win[w].obscured == obscured then m
    else
      var m1 := m.(win := m.win[w := m.win[w].(obscured := obscured)]);
      if obscured then m1.(table := StopFor(m1.table, w))
      else RequestUnlock(m1.(table := MaybeStart(m1.table, w, WalkOf(m1, env))), env)
  }

  function JobWatch(m: Manager, w: WindowId): Manager {
    m.(table := JobHup(m.table, w))
  }

  function ChildExit(m: Manager, pid: nat): Manager {
    m.(table := ChildExits(m.table, pid))
  }

  function SetThrottled(m: Manager, throttled: bool, env: Env): Manager {
    if m.throttled == throttled then m
    else
      var m1 := m.(throttled := throttled);
      if m1.dialogUp then m1 else WalkJobs(m1, if throttled then OpStop else OpStart, env)
  }

  function Cycle(m: Manager, env: Env): Manager {
    if !m.active || m.dialogUp || m.throttled then m else WalkJobs(m, OpCycle, env)
  }

  function ShowWindow(m: Manager, w: WindowId, env: Env): Manager
    requires w in m.win
  {
    var t1 := m.timers.(activateTime := env.now / 1000);
    var t2 := if t1.lockTimeout >= 0 then t1.(lockTimer := Some(env.now + t1.lockTimeout), lapsed := false) else t1;
    var t3 := if t2.cycleTimeout >= 10000 then t2.(cycleTimer := true) else t2;
    m.(win := m.win[w := m.win[w].(visible := true)],
       table := if m.hasJobs then m.table.(jobs := m.table.jobs[w := NewJob(env.spawns.CommandFor(w))]) else m.table,
       timers := t3)
  }

  function NewWindow(monitor: MonitorId, locked: bool): Window {
    Window(monitor, false, true, false, false, locked, false, false, false, false)
  }

  function CreateWindow(m: Manager, monitor: MonitorId, env: Env): Manager {
    var w := m.nextWindow;
    var m1 := m.(win := m.win[w := NewWindow(monitor, m.lockActive)], windows := m.windows + [w], nextWindow := w + 1);
    if m1.active then ShowWindow(m1, w, env) else m1
  }

  function CreateWindows(m: Manager, monitors: seq<MonitorId>, env: Env): Manager
    decreases |monitors|
  {
    if monitors == [] then m else CreateWindows(CreateWindow(m, monitors[0], env), monitors[1..], env)
  }

  function ShowWindows(m: Manager, ws: seq<WindowId>, env: Env): Manager
    decreases |ws|
  {
    if ws == [] then m
    else ShowWindows(if ws[0] in m.win then ShowWindow(m, ws[0], env) else m, ws[1..], env)
  }

  function Activate(m: Manager, env: Env): Outcome {
    if m.active || !env.grab then Outcome(m, false)
    else
      var m1 := if m.windows == [] then CreateWindows(m, m.monitors, env) else m;
      var m2 := m1.(hasJobs := true, table := m1.table.(jobs := map[]), active := true);
      Outcome(ShowWindows(m2, m2.windows, env), true)
  }

  function StopJobs(m: Manager, env: Env): Manager {
    var m1 := WalkJobs(m, OpStop, env);
    m1.(hasJobs := false, table := m1.table.(jobs := map[]))
  }

  function DestroyWindows(m: Manager, env: Env): Manager {
    PopdownAll(m, m.windows, env).(windows := [], win := map[])
  }

  function Deactivate(m: Manager, env: Env): Outcome {
    if !m.active then Outcome(m, false)
    else
      var m1 := m.(timers := m.timers.(lockTimer := None, cycleTimer := false));
      var m2 := DestroyWindows(StopJobs(m1, env), env);
      Outcome(m2.(active := false, lockActive := false, dialogUp := false,
                  timers := m2.timers.(activateTime := 0, lapsed := false)), true)
  }

  function SetActive(m: Manager, active: bool, env: Env): Outcome {
    if active then Activate(m, env) else Deactivate(m, env)
  }

  function Without(ws: seq<WindowId>, w: WindowId): seq<WindowId> {
    if ws == [] then []
    else if ws[0] == w then Without(ws[1..], w)
    else [ws[0]] + Without(ws[1..], w)
  }

  function RemoveWindow(m: Manager, w: WindowId, env: Env): Manager {
    var t := StopFor(m.table, w);
    var m1 := Popdown(m.(table := t.(jobs := t.jobs - {w})), w, env);
    m1.(windows := Without(m1.windows, w), win := m1.win - {w})
  }

  function RemoveWindowsOn(m: Manager, ws: seq<WindowId>, monitor: MonitorId, env: Env): Manager
    decreases |ws|
  {
    if ws == [] then m
    else
      var m1 := if ws[0] in m.win && m.win[ws[0]].monitor == monitor then RemoveWindow(m, ws[0], env) else m;
      RemoveWindowsOn(m1, ws[1..], monitor, env)
  }

  /** A monitor appears at some place in the display's list.  The handlers are
      connected exactly while there are windows. */
  function MonitorAdded(m: Manager, monitor: MonitorId, at: nat, env: Env): Manager {
    if monitor in m.monitors || at > |m.monitors| then m
    else
      var m1 := m.(monitors := m.monitors[..at] + [monitor] + m.monitors[at..]);
      if m1.windows == [] then m1
      else RequestUnlock(CreateWindow(PopdownAll(m1, m1.windows, env), monitor, env), env)
  }

  /** A monitor disappears; the display keeps at least one. */
  function MonitorRemoved(m: Manager, monitor: MonitorId, env: Env): Manager {
    if monitor !in m.monitors || |m.monitors| == 1 then m
    else
      var m1 := m.(monitors := Without(m.monitors, monitor));
      RemoveWindowsOn(m1, m1.windows, monitor, env)
  }

  function Initial(monitors: seq<MonitorId>): Manager {
    Manager(monitors, [], map[], 0, false, Table(map[], Kernel(map[], false)),
            false, false, false, false, false,
            Timers(0, 0, 0, None, false, false), Outbox([], [], []))
  }
}
