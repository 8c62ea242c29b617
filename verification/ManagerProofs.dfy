/** The invariant of the manager and the proof that every callback keeps it. */
module ManagerProofs {
  import opened Options
  import opened Jobs
  import opened JobTable
  import opened ManagerModel

  const MAX_LOCK_TIMEOUT: int := 480 * 60000

  // ----- The invariant ---------------------------------------------------------

  predicate Distinct(s: seq<nat>) {
    forall i, j :: 0 <= i < j < |s| ==> s[i] != s[j]
  }

  predicate Listed(windows: seq<WindowId>, keys: set<WindowId>, next: nat) {
    && Distinct(windows)
    && (forall w :: w in keys ==> w in windows && w < next)
    && (forall w :: w in windows ==> w in keys)
  }

  predicate WindowsOk(m: Manager) {
    Listed(m.windows, m.win.Keys, m.nextWindow)
  }

  predicate SomeDialog(win: map<WindowId, Window>) {
    exists w :: w in win && win[w].dialogUp
  }

  /** Dialog uniqueness: at most one window has its dialog up, the manager's flag holds
      exactly when one does, and the insensitive windows are exactly the others. */
  predicate DialogOk(win: map<WindowId, Window>, dialogUp: bool) {
    && (forall v, w :: v in win && w in win && win[v].dialogUp && win[w].dialogUp ==> v == w)
    && (dialogUp <==> SomeDialog(win))
    && (forall w :: w in win ==> win[w].sensitive == (!dialogUp || win[w].dialogUp))
    && (forall w :: w in win && (win[w].popupIdle || win[w].lockWatch || win[w].lockSource) ==> win[w].dialogUp)
  }

  /** AUTH_REQUEST_BEGIN and AUTH_REQUEST_END strictly alternate, and a request is
      open exactly while the dialog is up. */
  predicate SignalsOk(signals: seq<AuthSignal>, dialogUp: bool) {
    && (forall i :: 0 <= i < |signals| ==> signals[i] == if i % 2 == 0 then RequestBegin else RequestEnd)
    && (dialogUp <==> |signals| % 2 == 1)
  }

  /** Job exclusion: while throttled or under the dialog, no saver process executes. */
  ghost predicate Exclusion(m: Manager) {
    m.throttled || m.dialogUp ==> AllQuiet(m.table)
  }

  predicate Covered(keys: set<WindowId>, windows: seq<WindowId>) {
    forall w :: w in keys ==> w in windows
  }

  predicate JobsCovered(m: Manager) {
    && Covered(m.table.jobs.Keys, m.windows)
    && (!m.hasJobs ==> m.table.jobs.Keys == {})
  }

  ghost predicate Base(m: Manager) {
    && WindowsOk(m)
    && DialogOk(m.win, m.dialogUp)
    && SignalsOk(m.out.signals, m.dialogUp)
    && TableOk(m.table, Obscured(m))
    && JobsCovered(m)
    && Exclusion(m)
  }

  /** While active: jobs for exactly the windows, all of them shown and all of them
      locked exactly when the manager is.  While inactive: nothing at all. */
  ghost predicate Shape(m: Manager) {
    if m.active then
      && m.hasJobs && m.windows != []
      && m.table.jobs.Keys == m.win.Keys
      && (forall w :: w in m.win ==> m.win[w].visible && m.win[w].lockEnabled == m.lockActive)
    else
      && m.windows == [] && m.win == map[]
      && !m.hasJobs && m.table == Table(map[], Kernel(map[], false))
      && m.timers.lockTimer == None && !m.timers.cycleTimer
      && !m.lockActive && !m.dialogUp
  }

  /** One window per monitor while active. */
  ghost predicate MonitorsOk(m: Manager) {
    && Distinct(m.monitors) && m.monitors != []
    && (m.active ==> WindowPerMonitor(m))
  }

  ghost predicate WindowPerMonitor(m: Manager) {
    && (forall w :: w in m.win ==> m.win[w].monitor in m.monitors)
    && (forall v, w :: v in m.win && w in m.win && m.win[v].monitor == m.win[w].monitor ==> v == w)
    && (forall mon {:trigger HasWindow(m, mon)} :: mon in m.monitors ==> HasWindow(m, mon))
  }

  ghost predicate HasWindow(m: Manager, mon: MonitorId) {
    exists w :: w in m.win && m.win[w].monitor == mon
  }

  /** Lock deadline: an active unlocked saver has its lock timer due within the second
      that starts at activation time plus timeout, or that time has passed (with locking
      disabled, see the steps that set `lapsed`). */
  predicate DeadlineOk(t: Timers, now: nat) {
    var deadline := 1000 * t.activateTime + t.lockTimeout;
    if t.lapsed then t.lockTimer == None && deadline <= now
    else t.lockTimer.Some? && 0 <= t.lockTimer.value - deadline < 1000
  }

  predicate TimersOk(m: Manager, now: nat) {
    && 0 <= m.timers.lockTimeout <= MAX_LOCK_TIMEOUT
    && (if m.active then 1000 * m.timers.activateTime <= now else !m.timers.lapsed)
    && (m.active && !m.lockActive ==> DeadlineOk(m.timers, now))
  }

  ghost predicate Inv(m: Manager, now: nat) {
    Base(m) && Shape(m) && MonitorsOk(m) && TimersOk(m, now)
  }

  // ----- Walks -----------------------------------------------------------------

  lemma WalkKeeps(m: Manager, op: JobOp, env: Env)
    requires TableOk(m.table, Obscured(m)) && JobsCovered(m)
    ensures var r := WalkJobs(m, op, env);
            && r == m.(table := r.table)
            && TableOk(r.table, Obscured(m))
            && r.table.jobs.Keys == m.table.jobs.Keys
            && (op == OpStop ==> NoProcess(r.table))
            && (op == OpSuspend ==> AllQuiet(r.table))
            && ((m.dialogUp || m.throttled) && op != OpResume && AllQuiet(m.table) ==> AllQuiet(r.table))
  {
    hide TableOk;
    if m.hasJobs {
      ApplyAllKeeps(m.table, op, JobOrder(m, env), WalkOf(m, env));
    }
  }

  // ----- The dialog ------------------------------------------------------------

  lemma SignalsAfterBegin(signals: seq<AuthSignal>)
    requires SignalsOk(signals, false)
    ensures SignalsOk(signals + [RequestBegin], true)
  {
  }

  lemma SignalsAfterEnd(signals: seq<AuthSignal>)
    requires SignalsOk(signals, true)
    ensures SignalsOk(signals + [RequestEnd], false)
  {
  }

  function Lowered(m: Manager, w: WindowId): map<WindowId, Window>
    requires w in m.win
  {
    var win := if m.win[w].dialogUp then AllSensitive(m.win[w := m.win[w].(dialogUp := false)], m.windows) else m.win;
    win[w := win[w].(popupIdle := false, lockWatch := false, lockSource := false)]
  }

  lemma LoweredAt(m: Manager, w: WindowId)
    requires WindowsOk(m) && w in m.win
    requires m.win[w].dialogUp || !(m.win[w].popupIdle || m.win[w].lockWatch || m.win[w].lockSource)
    ensures Lowered(m, w).Keys == m.win.Keys
    ensures forall x :: x in m.win ==> Lowered(m, w)[x] == LoweredWindow(m.win[x], x == w, m.win[w].dialogUp)
  {
  }

  function LoweredWindow(x: Window, self: bool, wasUp: bool): Window {
    x.(dialogUp := x.dialogUp && !self, sensitive := x.sensitive || wasUp,
       popupIdle := x.popupIdle && !self, lockWatch := x.lockWatch && !self, lockSource := x.lockSource && !self)
  }

  lemma LoweredOk(m: Manager, w: WindowId)
    requires WindowsOk(m) && DialogOk(m.win, m.dialogUp) && w in m.win
    ensures DialogOk(Lowered(m, w), m.dialogUp && !m.win[w].dialogUp)
    ensures Lowered(m, w).Keys == m.win.Keys
    ensures forall x :: x in m.win ==> Lowered(m, w)[x] == LoweredWindow(m.win[x], x == w, m.win[w].dialogUp)
    ensures ObscuredIn(Lowered(m, w)) == ObscuredIn(m.win)
  {
    LoweredAt(m, w);
    var low := Lowered(m, w);
    hide WindowsOk, Lowered;
    assert m.win[w].dialogUp ==> SomeDialog(m.win);
    if m.dialogUp && !m.win[w].dialogUp {
      var v :| v in m.win && m.win[v].dialogUp;
      assert low[v].dialogUp;
    }
  }

  /** The state in which jobs are resumed while a dialog goes down. */
  function Resuming(m: Manager, w: WindowId): Manager
    requires w in m.win
  {
    m.(win := AllSensitive(m.win[w := m.win[w].(dialogUp := false)], m.windows), dialogUp := false)
  }

  lemma PopdownIs(m: Manager, w: WindowId, env: Env)
    requires w in m.win
    ensures Popdown(m, w, env) ==
            if !m.win[w].dialogUp then m.(win := Lowered(m, w))
            else
              var r := if m.throttled then Resuming(m, w) else WalkJobs(Resuming(m, w), OpResume, env);
              Emit(r, RequestEnd).(win := Lowered(m, w))
  {
    hide ApplyAll, Enumerates, Obscured;
  }

  lemma ResumingSame(m: Manager, w: WindowId)
    requires w in m.win
    ensures ObscuredIn(Resuming(m, w).win) == ObscuredIn(m.win)
  {
  }

  /** Popping a dialog down, whether or not it was up. */
  lemma PopdownKeeps(m: Manager, w: WindowId, env: Env)
    requires Base(m) && w in m.win
    ensures var r := Popdown(m, w, env);
            && Base(r)
            && r == m.(win := Lowered(m, w), dialogUp := m.dialogUp && !m.win[w].dialogUp,
                       table := r.table, out := m.out.(signals := r.out.signals))
            && r.out.signals == (if m.win[w].dialogUp then m.out.signals + [RequestEnd] else m.out.signals)
            && r.table.jobs.Keys == m.table.jobs.Keys
  {
    hide TableOk, SignalsOk, Popdown, Lowered, WalkJobs, AllQuiet, ObscuredIn, Listed, Covered;
    PopdownIs(m, w, env);
    LoweredOk(m, w);
    if m.win[w].dialogUp {
      assert m.dialogUp by { assert SomeDialog(m.win); }
      hide DialogOk;
      SignalsAfterEnd(m.out.signals);
      ResumingSame(m, w);
      WalkKeeps(Resuming(m, w), OpResume, env);
    }
  }

  // ----- Steps that leave the shape alone --------------------------------------

  /** The two states differ only in dialogs, jobs, queues and obscured windows. */
  ghost predicate SameShape(m: Manager, r: Manager) {
    && r.monitors == m.monitors && r.windows == m.windows && r.hasJobs == m.hasJobs
    && r.active == m.active && r.lockActive == m.lockActive && r.timers == m.timers
    && r.win.Keys == m.win.Keys && r.table.jobs.Keys == m.table.jobs.Keys
    && (forall w :: w in m.win ==> SameWindow(m.win[w], r.win[w]))
    && (!m.active ==> r.win == m.win && r.table == m.table && r.dialogUp == m.dialogUp)
  }

  predicate SameWindow(a: Window, b: Window) {
    b.monitor == a.monitor && b.visible == a.visible && b.lockEnabled == a.lockEnabled
  }

  lemma SameMonitors(m: Manager, r: Manager)
    requires WindowPerMonitor(m)
    requires r.monitors == m.monitors && r.win.Keys == m.win.Keys
    requires forall w :: w in m.win ==> r.win[w].monitor == m.win[w].monitor
    ensures WindowPerMonitor(r)
  {
    forall mon | mon in m.monitors ensures HasWindow(r, mon) {
      assert HasWindow(m, mon);
      var w :| w in m.win && m.win[w].monitor == mon;
      assert w in r.win && r.win[w].monitor == mon;
    }
  }

  lemma ShapeKept(m: Manager, r: Manager, now: nat)
    requires Inv(m, now) && Base(r) && SameShape(m, r)
    ensures Inv(r, now)
  {
    hide Base;
    if m.active {
      SameMonitors(m, r);
    }
  }

  // ----- Raising the dialog ----------------------------------------------------

  function Raised(m: Manager, w: WindowId): map<WindowId, Window>
    requires w in m.win
  {
    WithSensitive(m.win[w := m.win[w].(popupIdle := true, dialogUp := true)], m.windows, w)
  }

  lemma RaisedOk(m: Manager, w: WindowId)
    requires WindowsOk(m) && DialogOk(m.win, false) && w in m.win
    ensures DialogOk(Raised(m, w), true)
    ensures Raised(m, w).Keys == m.win.Keys
    ensures forall x :: x in m.win ==> SameWindow(m.win[x], Raised(m, w)[x])
    ensures ObscuredIn(Raised(m, w)) == ObscuredIn(m.win)
  {
    assert forall x :: x in m.win && m.win[x].dialogUp ==> SomeDialog(m.win);
    assert Raised(m, w)[w].dialogUp;
  }

  function Suspending(m: Manager, w: WindowId): Manager
    requires w in m.win
  {
    m.(win := Raised(m, w), dialogUp := true, out := m.out.(signals := m.out.signals + [RequestBegin]))
  }

  lemma RaiseIs(m: Manager, w: WindowId, env: Env)
    requires w in m.win && !m.win[w].dialogUp
    ensures SetDialogUp(m.(win := m.win[w := m.win[w].(popupIdle := true)]), w, true, env) ==
            if m.throttled then Suspending(m, w) else WalkJobs(Suspending(m, w), OpSuspend, env)
  {
    hide ApplyAll, Enumerates, ObscuredIn;
    assert m.win[w := m.win[w].(popupIdle := true)][w := m.win[w].(popupIdle := true, dialogUp := true)]
        == m.win[w := m.win[w].(popupIdle := true, dialogUp := true)];
  }

  lemma SuspendingBase(m: Manager, w: WindowId, env: Env)
    requires w in m.win && !m.dialogUp
    requires Base(m) && m.active
    ensures var s := Suspending(m, w);
            var r := if m.throttled then s else WalkJobs(s, OpSuspend, env);
            Base(r) && SameShape(m, r) && r == s.(table := r.table)
  {
    RaisedOk(m, w);
    SignalsAfterBegin(m.out.signals);
    hide TableOk, SignalsOk, Raised, WalkJobs, AllQuiet, ObscuredIn, Listed, Covered, DialogOk;
    WalkKeeps(Suspending(m, w), OpSuspend, env);
  }

  lemma RaiseKeeps(m: Manager, w: WindowId, env: Env)
    requires w in m.win && !m.dialogUp
    requires Base(m) && m.active
    ensures !m.win[w].dialogUp
    ensures var r := SetDialogUp(m.(win := m.win[w := m.win[w].(popupIdle := true)]), w, true, env);
            Base(r) && SameShape(m, r) && r.nextWindow == m.nextWindow && r.throttled == m.throttled
            && r.lockEnabled == m.lockEnabled
            && r.out == m.out.(signals := m.out.signals + [RequestBegin])
            && r.dialogUp && r.win[w].dialogUp
  {
    assert m.win[w].dialogUp ==> SomeDialog(m.win);
    RaisedOk(m, w);
    hide Base, SameShape, SetDialogUp, WalkJobs;
    RaiseIs(m, w, env);
    SuspendingBase(m, w, env);
  }

  lemma {:induction false} PointerWindowListed(m: Manager, pointer: MonitorId, n: nat)
    requires n <= |m.windows| && m.windows != []
    ensures WindowAtPointer(m, pointer, n) in m.windows
    ensures AtPointer(m, pointer, n, WindowAtPointer(m, pointer, n))
    decreases n
  {
    if n > 0 {
      PointerWindowListed(m, pointer, n - 1);
    }
  }

  /** What a request to unlock may leave behind: on a window that is not locked, one
      queued deactivation. */
  ghost predicate Requested(m: Manager, r: Manager) {
    && r.throttled == m.throttled && r.lockEnabled == m.lockEnabled
    && r.out.managerIdles == m.out.managerIdles
    && (r.out.windowIdles == m.out.windowIdles || QueuedUnlocked(m, r.out.windowIdles))
  }

  ghost predicate QueuedUnlocked(m: Manager, q: seq<Token>) {
    exists w :: w in m.win && !m.win[w].lockEnabled && q == m.out.windowIdles + [Token(w, WindowNotLocked)]
  }

  /** A request to unlock either raises the one dialog or, on a window that is not
      locked, queues a deactivation; nothing else moves. */
  lemma RequestUnlockKeeps(m: Manager, env: Env, now: nat)
    requires Inv(m, now)
    ensures var r := RequestUnlock(m, env);
            Inv(r, now) && SameShape(m, r) && Requested(m, r)
  {
    if m.active && !m.dialogUp && m.windows != [] {
      var w := WindowAtPointer(m, env.pointer, |m.windows|);
      PointerWindowListed(m, env.pointer, |m.windows|);
      assert w in m.win;
      RequestUnlockWindowKeeps(m, w, env, now);
    }
  }

  lemma RequestUnlockWindowKeeps(m: Manager, w: WindowId, env: Env, now: nat)
    requires Inv(m, now) && m.active && !m.dialogUp && w in m.win
    ensures var r := RequestUnlockWindow(m, w, env);
            Inv(r, now) && SameShape(m, r) && Requested(m, r)
  {
    var r := RequestUnlockWindow(m, w, env);
    if m.win[w].visible && !m.win[w].lockWatch {
      if m.win[w].lockEnabled {
        RaiseKeeps(m, w, env);
      }
      hide TableOk, SetDialogUp, DialogOk, SignalsOk, AllQuiet, ObscuredIn, Listed, Covered;
      assert Base(r) && SameShape(m, r);
      hide Base, Shape, MonitorsOk, TimersOk;
      ShapeKept(m, r, now);
    }
  }

  // ----- Lowering the dialog ---------------------------------------------------

  lemma PopdownSame(m: Manager, w: WindowId, env: Env)
    requires Base(m) && w in m.win && (m.active || m.win == map[])
    ensures var r := Popdown(m, w, env);
            && Base(r) && SameShape(m, r) && r.throttled == m.throttled && r.lockEnabled == m.lockEnabled
            && r.nextWindow == m.nextWindow
            && r.out.windowIdles == m.out.windowIdles && r.out.managerIdles == m.out.managerIdles
            && r.win[w].okResponse == m.win[w].okResponse
            && r.dialogUp == (m.dialogUp && !m.win[w].dialogUp)
            && r.out.signals == (if m.win[w].dialogUp then m.out.signals + [RequestEnd] else m.out.signals)
            && (forall x :: x in m.win ==> r.win[x].dialogUp == (m.win[x].dialogUp && x != w))
  {
    hide TableOk, SignalsOk, Popdown, Lowered, WalkJobs, AllQuiet, ObscuredIn, Listed, Covered;
    PopdownKeeps(m, w, env);
    LoweredOk(m, w);
    hide DialogOk;
  }

  lemma FinishDialogKeeps(m: Manager, w: WindowId, ok: bool, env: Env, r: Manager, now: nat)
    requires w in m.win && ok == m.win[w].okResponse && m.win[w].dialogUp && r == FinishDialog(m, w, env)
    requires Inv(m, now) && m.active
    ensures Inv(r, now) && SameShape(m, r) && Ended(m, r, w, ok) && Closed(m, r, w)
  {
    hide Popdown, Base, SameShape, Shape, MonitorsOk, TimersOk;
    var m1 := Popdown(m, w, env);
    PopdownSame(m, w, env);
    QueueBase(m1, w, DialogSaidOk);
    SameSame(m, m1, r);
    ShapeKept(m, r, now);
  }

  lemma QueueBase(m: Manager, w: WindowId, cause: Cause)
    requires Base(m)
    ensures Base(QueueDeactivation(m, w, cause)) && SameShape(m, QueueDeactivation(m, w, cause)) && SameShape(m, m)
  {
    hide TableOk, DialogOk, SignalsOk, AllQuiet, ObscuredIn, Listed, Covered;
  }

  lemma ReplaceOk(win: map<WindowId, Window>, w: WindowId, x: Window, dialogUp: bool)
    requires DialogOk(win, dialogUp) && w in win
    requires x.dialogUp == win[w].dialogUp && x.sensitive == win[w].sensitive
    requires x.popupIdle || x.lockWatch || x.lockSource ==> x.dialogUp
    ensures DialogOk(win[w := x], dialogUp)
    ensures win[w := x].Keys == win.Keys
    ensures x.obscured == win[w].obscured ==> ObscuredIn(win[w := x]) == ObscuredIn(win)
  {
  }

  /** Changing one window's flags that no other part looks at. */
  lemma TweakKeeps(m: Manager, w: WindowId, x: Window, now: nat)
    requires w in m.win
    requires x == m.win[w].(okResponse := x.okResponse, popupIdle := x.popupIdle, lockWatch := x.lockWatch,
                            lockSource := x.lockSource)
    requires x.popupIdle || x.lockWatch || x.lockSource ==> x.dialogUp
    requires Inv(m, now)
    ensures Inv(m.(win := m.win[w := x]), now) && SameShape(m, m.(win := m.win[w := x]))
  {
    var r := m.(win := m.win[w := x]);
    hide TableOk, DialogOk, SignalsOk, AllQuiet, ObscuredIn, Listed, Covered, Shape, MonitorsOk, TimersOk;
    ReplaceOk(m.win, w, x, m.dialogUp);
    LiveWindow(m, w, now);
    assert SameShape(m, r);
    hide SameShape;
    assert Base(r);
    hide Base;
    ShapeKept(m, r, now);
  }

  lemma PopupDialogIdleKeeps(m: Manager, w: WindowId, spawned: bool, now: nat)
    requires Inv(m, now)
    ensures Inv(PopupDialogIdle(m, w, spawned), now) && SameShape(m, PopupDialogIdle(m, w, spawned))
  {
    if w in m.win && m.win[w].popupIdle {
      assert m.win[w].dialogUp by { assert Base(m) && DialogOk(m.win, m.dialogUp); }
      hide Inv;
      TweakKeeps(m, w, m.win[w].(popupIdle := false, lockWatch := m.win[w].lockWatch || spawned,
                                 lockSource := m.win[w].lockSource || spawned), now);
    }
  }

  /** What the end of a dialog does to the queues. */
  predicate Ended(m: Manager, r: Manager, w: WindowId, ok: bool) {
    && r.throttled == m.throttled && r.lockEnabled == m.lockEnabled
    && r.out.managerIdles == m.out.managerIdles
    && r.out.windowIdles == m.out.windowIdles + (if ok then [Token(w, DialogSaidOk)] else [])
  }

  lemma ResponseKeeps(m: Manager, w: WindowId, x: Window, m1: Manager, env: Env, r: Manager, now: nat)
    requires w in m.win && x == m.win[w].(okResponse := x.okResponse) && m1 == m.(win := m.win[w := x])
    requires x.dialogUp && r == FinishDialog(m1, w, env)
    requires Inv(m, now) && m.active
    ensures Inv(r, now) && SameShape(m, r) && Ended(m, r, w, x.okResponse) && Closed(m, r, w)
  {
    hide Inv, FinishDialog, SameShape;
    TweakKeeps(m, w, x, now);
    FinishDialogKeeps(m1, w, x.okResponse, env, r, now);
    SameSame(m, m1, r);
  }

  /** The dialog of window `w` is down, and its authentication request has ended. */
  predicate Closed(m: Manager, r: Manager, w: WindowId) {
    && !r.dialogUp && w in r.win && !r.win[w].dialogUp
    && r.out.signals == m.out.signals + [RequestEnd]
  }

  /** Nothing has happened to any dialog. */
  predicate DialogsStay(m: Manager, r: Manager) {
    && r == m.(win := r.win) && r.win.Keys == m.win.Keys
    && (forall w :: w in m.win ==> r.win[w].dialogUp == m.win[w].dialogUp)
  }

  predicate EndsDialog(line: DialogLine) {
    line == ResponseOk || line == ResponseCancel || line == EndOfOutput
  }

  predicate WatchExplained(m: Manager, r: Manager, w: WindowId, line: DialogLine) {
    var watched := w in m.win && m.win[w].lockSource;
    && Ended(m, r, w, watched && (line == ResponseOk || (line == EndOfOutput && m.win[w].okResponse)))
    && (if watched && EndsDialog(line) then Closed(m, r, w) else DialogsStay(m, r))
  }

  ghost predicate WatchOk(m: Manager, r: Manager, w: WindowId, line: DialogLine, now: nat) {
    Inv(r, now) && SameShape(m, r) && WatchExplained(m, r, w, line)
  }

  lemma LiveWindow(m: Manager, w: WindowId, now: nat)
    requires Inv(m, now) && w in m.win
    ensures m.active
    ensures m.win[w].popupIdle || m.win[w].lockWatch || m.win[w].lockSource ==> m.win[w].dialogUp
  {
    assert Base(m) && Shape(m) && DialogOk(m.win, m.dialogUp);
  }

  lemma WatchRespondsOk(m: Manager, w: WindowId, ok: bool, env: Env, now: nat)
    requires Inv(m, now) && w in m.win && m.win[w].lockSource
    ensures var line := if ok then ResponseOk else ResponseCancel;
            WatchOk(m, LockCommandWatch(m, w, line, env), w, line, now)
  {
    hide Inv, FinishDialog, SameShape;
    LiveWindow(m, w, now);
    var x := m.win[w].(okResponse := ok);
    var m1 := m.(win := m.win[w := x]);
    ResponseKeeps(m, w, x, m1, env, FinishDialog(m1, w, env), now);
  }

  lemma WatchEndsOk(m: Manager, w: WindowId, line: DialogLine, env: Env, now: nat)
    requires Inv(m, now) && w in m.win && m.win[w].lockSource
    requires line == EndOfOutput || line == ReadError
    ensures WatchOk(m, LockCommandWatch(m, w, line, env), w, line, now)
  {
    hide Inv, FinishDialog, SameShape;
    LiveWindow(m, w, now);
    if line == EndOfOutput {
      FinishDialogKeeps(m, w, m.win[w].okResponse, env, FinishDialog(m, w, env), now);
    } else {
      TweakKeeps(m, w, m.win[w].(lockSource := false), now);
    }
  }

  /** The watch on a dialog takes it down exactly when it answers or its output ends, and
      then queues a deactivation exactly when the last response the window received was OK. */
  lemma LockCommandWatchKeeps(m: Manager, w: WindowId, line: DialogLine, env: Env, now: nat)
    requires Inv(m, now)
    ensures WatchOk(m, LockCommandWatch(m, w, line, env), w, line, now)
  {
    hide Inv;
    if w !in m.win || !m.win[w].lockSource || line == OtherLine {
      SameIsSame(m);
      hide SameShape;
    } else {
      hide LockCommandWatch, WatchOk;
      if line == EndOfOutput || line == ReadError {
        WatchEndsOk(m, w, line, env, now);
      } else {
        WatchRespondsOk(m, w, line == ResponseOk, env, now);
      }
    }
  }

  lemma SameIsSame(m: Manager)
    ensures SameShape(m, m)
  {
  }

  lemma SameSame(a: Manager, b: Manager, c: Manager)
    requires SameShape(a, b) && SameShape(b, c)
    ensures SameShape(a, c)
  {
  }

  // ----- Jobs ------------------------------------------------------------------

  /** A new job table over the same keys, with the exclusion re-established. */
  lemma TableStep(m: Manager, table: Table, now: nat)
    requires Inv(m, now)
    requires TableOk(table, Obscured(m)) && table.jobs.Keys == m.table.jobs.Keys
    requires m.throttled || m.dialogUp ==> AllQuiet(table)
    requires !m.active ==> table == m.table
    ensures Inv(m.(table := table), now) && SameShape(m, m.(table := table))
  {
    var r := m.(table := table);
    hide TableOk, DialogOk, SignalsOk, AllQuiet, ObscuredIn, Listed, Covered;
    assert Base(r) && SameShape(m, r);
    hide Base, Shape, MonitorsOk, TimersOk;
    ShapeKept(m, r, now);
  }

  lemma MapEventKeeps(m: Manager, w: WindowId, env: Env, now: nat)
    requires Inv(m, now)
    ensures Inv(MapEvent(m, w, env), now) && SameShape(m, MapEvent(m, w, env))
  {
    SameIsSame(m);
    if w in m.win {
      ApplyKeeps(m.table, OpStart, w, WalkOf(m, env));
      var t := MaybeStart(m.table, w, WalkOf(m, env));
      hide TableOk;
      assert AllQuiet(m.table) && (m.dialogUp || m.throttled) ==> AllQuiet(t);
      hide AllQuiet, DialogOk, SignalsOk, ObscuredIn, Listed, Covered, MaybeStart;
      TableStep(m, t, now);
    }
  }

  lemma JobWatchKeeps(m: Manager, w: WindowId, now: nat)
    requires Inv(m, now)
    ensures Inv(JobWatch(m, w), now) && SameShape(m, JobWatch(m, w))
    ensures JobWatch(m, w) == m.(table := JobWatch(m, w).table) && Reaped(m.table, w, JobWatch(m, w).table)
  {
    JobHupKeeps(m.table, w, Obscured(m));
    assert JobHup(m.table, w).jobs.Keys == m.table.jobs.Keys;
    hide TableOk, AllQuiet, DialogOk, SignalsOk, ObscuredIn, Listed, Covered, JobHup;
    TableStep(m, JobHup(m.table, w), now);
  }

  lemma ChildExitKeeps(m: Manager, pid: nat, now: nat)
    requires Inv(m, now)
    ensures Inv(ChildExit(m, pid), now) && SameShape(m, ChildExit(m, pid))
  {
    ChildExitsKeeps(m.table, pid, Obscured(m));
    var t := ChildExits(m.table, pid);
    assert AllQuiet(m.table) ==> AllQuiet(t);
    hide TableOk, AllQuiet, DialogOk, SignalsOk, ObscuredIn, Listed, Covered;
    TableStep(m, t, now);
  }

  lemma CycleKeepsInv(m: Manager, env: Env, now: nat)
    requires Inv(m, now)
    ensures Inv(Cycle(m, env), now) && SameShape(m, Cycle(m, env))
  {
    SameIsSame(m);
    if m.active && !m.dialogUp && !m.throttled {
      hide TableOk, AllQuiet, DialogOk, SignalsOk, ObscuredIn, Listed, Covered, WalkJobs;
      WalkKeeps(m, OpCycle, env);
      TableStep(m, WalkJobs(m, OpCycle, env).table, now);
    }
  }

  /** Throttling stops the savers at once, or leaves them suspended under the dialog. */
  lemma SetThrottledKeeps(m: Manager, throttled: bool, env: Env, now: nat)
    requires Inv(m, now)
    ensures var r := SetThrottled(m, throttled, env);
            Inv(r, now) && r.throttled == throttled && SameShape(m, r) && r.out == m.out && r.lockEnabled == m.lockEnabled
  {
    SameIsSame(m);
    if m.throttled != throttled {
      var m1 := m.(throttled := throttled);
      var r := SetThrottled(m, throttled, env);
      if !m1.dialogUp {
        var op := if throttled then OpStop else OpStart;
        WalkKeeps(m1, op, env);
        assert throttled ==> AllQuiet(r.table);
      }
      hide TableOk, AllQuiet, DialogOk, SignalsOk, ObscuredIn, Listed, Covered, ApplyAll;
      assert Base(r) && SameShape(m, r);
      hide Base, Shape, MonitorsOk, TimersOk;
      ShapeKept(m, r, now);
    }
  }

  lemma StoppedTable(t: Table, w: WindowId, before: set<WindowId>, after: set<WindowId>)
    requires TableOk(t, before) && (forall v :: v in after ==> v in before || v == w)
    ensures TableOk(StopFor(t, w), after) && StopFor(t, w).jobs.Keys == t.jobs.Keys
    ensures AllQuiet(t) ==> AllQuiet(StopFor(t, w))
  {
    StopForKeeps(t, w, before);
    ObscuredMayChange(StopFor(t, w), before, after);
    hide TableOk;
  }

  /** Changing one window's obscured flag, with a table that agrees. */
  lemma ObscuredStep(m: Manager, w: WindowId, x: Window, r: Manager, now: nat)
    requires w in m.win && x == m.win[w].(obscured := x.obscured)
    requires r == m.(win := m.win[w := x], table := r.table)
    requires x.popupIdle || x.lockWatch || x.lockSource ==> x.dialogUp
    requires TableOk(r.table, ObscuredIn(r.win))
    requires r.table.jobs.Keys == m.table.jobs.Keys && (AllQuiet(m.table) ==> AllQuiet(r.table))
    requires Inv(m, now) && m.active
    ensures Inv(r, now) && SameShape(m, r)
  {
    hide TableOk, SignalsOk, AllQuiet, ObscuredIn, Listed, Covered, Shape, MonitorsOk, TimersOk, DialogOk;
    ReplaceOk(m.win, w, x, m.dialogUp);
    assert SameShape(m, r);
    hide SameShape;
    assert Base(r);
    hide Base;
    ShapeKept(m, r, now);
  }

  lemma ObscureKeeps(m: Manager, w: WindowId, x: Window, r: Manager, now: nat)
    requires w in m.win && x == m.win[w].(obscured := true)
    requires r == m.(win := m.win[w := x], table := StopFor(m.table, w))
    requires Inv(m, now)
    ensures Inv(r, now) && SameShape(m, r)
  {
    StoppedTable(m.table, w, Obscured(m), ObscuredIn(r.win));
    hide Inv, StopFor, TableOk, AllQuiet, SameShape;
    LiveWindow(m, w, now);
    ObscuredStep(m, w, x, r, now);
  }

  lemma UnobscureKeeps(m: Manager, w: WindowId, x: Window, r: Manager, now: nat)
    requires w in m.win && x == m.win[w].(obscured := false)
    requires r == m.(win := m.win[w := x])
    requires Inv(m, now)
    ensures Inv(r, now) && SameShape(m, r)
  {
    ObscuredMayChange(m.table, Obscured(m), Obscured(r));
    hide Inv, TableOk, AllQuiet, SameShape;
    LiveWindow(m, w, now);
    ObscuredStep(m, w, x, r, now);
  }

  lemma SetObscuredKeeps(m: Manager, w: WindowId, obscured: bool, env: Env, now: nat)
    requires Inv(m, now)
    ensures var r := SetObscured(m, w, obscured, env);
            Inv(r, now) && SameShape(m, r) && Requested(m, r)
  {
    hide Inv, RequestUnlock, SameShape, QueuedUnlocked;
    SameIsSame(m);
    if w in m.win && m.win[w].obscured != obscured {
      var x := m.win[w].(obscured := obscured);
      var m1 := m.(win := m.win[w := x]);
      if obscured {
        ObscureKeeps(m, w, x, m1.(table := StopFor(m.table, w)), now);
      } else {
        UnobscureKeeps(m, w, x, m1, now);
        var m2 := MapEvent(m1, w, env);
        MapEventKeeps(m1, w, env, now);
        SameSame(m, m1, m2);
        RequestAfter(m, m2, env, now);
      }
    }
  }

  /** A request made after a step that kept the shape, seen from before that step. */
  lemma RequestAfter(m: Manager, m2: Manager, env: Env, now: nat)
    requires Inv(m2, now) && SameShape(m, m2)
    requires m2.throttled == m.throttled && m2.lockEnabled == m.lockEnabled && m2.out == m.out
    ensures var r := RequestUnlock(m2, env);
            Inv(r, now) && SameShape(m, r) && Requested(m, r)
  {
    hide Inv, RequestUnlock;
    var r := RequestUnlock(m2, env);
    RequestUnlockKeeps(m2, env, now);
    SameSame(m, m2, r);
    if r.out.windowIdles != m2.out.windowIdles {
      var v :| v in m2.win && !m2.win[v].lockEnabled
               && r.out.windowIdles == m2.out.windowIdles + [Token(v, WindowNotLocked)];
      assert v in m.win && SameWindow(m.win[v], m2.win[v]);
    }
  }
}
