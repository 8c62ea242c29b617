/** The manager object: its fields are updated in place by the callbacks, its loops walk
    the window list and the jobs table.  Every method is proved to take the step that
    ManagerModel gives for it, and so keeps the invariant of ManagerProofs. */
module ManagerObject {
  import opened Options
  import opened Jobs
  import opened JobTable
  import opened ManagerModel

  lemma LockOneMore(win: map<WindowId, Window>, ws: seq<WindowId>, w: WindowId, locked: bool)
    ensures var done := WithLockEnabled(win, ws, locked);
            WithLockEnabled(win, ws + [w], locked) ==
            if w in win then done[w := done[w].(lockEnabled := locked)] else done
  {
  }

  lemma DesensitizeOneMore(win: map<WindowId, Window>, ws: seq<WindowId>, w: WindowId, except: WindowId)
    ensures var done := WithSensitive(win, ws, except);
            WithSensitive(win, ws + [w], except) ==
            if w in win && w != except then done[w := done[w].(sensitive := false)] else done
  {
  }

  lemma SensitizeOneMore(win: map<WindowId, Window>, ws: seq<WindowId>, w: WindowId)
    ensures var done := AllSensitive(win, ws);
            AllSensitive(win, ws + [w]) == if w in win then done[w := done[w].(sensitive := true)] else done
  {
  }

  lemma NoneTouched(win: map<WindowId, Window>, locked: bool, except: WindowId)
    ensures WithLockEnabled(win, [], locked) == WithSensitive(win, [], except) == AllSensitive(win, []) == win
  {
  }

  class ScreenManager {
    var monitors: seq<MonitorId>
    var windows: seq<WindowId>
    var win: map<WindowId, Window>
    var nextWindow: nat
    var hasJobs: bool
    var table: Table
    var active: bool
    var lockActive: bool
    var lockEnabled: bool
    var throttled: bool
    var dialogUp: bool
    var timers: Timers
    var out: Outbox

    constructor (monitors: seq<MonitorId>)
      ensures View() == Initial(monitors)
    {
      this.monitors, windows, win, nextWindow := monitors, [], map[], 0;
      hasJobs, table := false, Table(map[], Kernel(map[], false));
      active, lockActive, lockEnabled, throttled, dialogUp := false, false, false, false, false;
      timers := Timers(0, 0, 0, None, false, false);
      out := Outbox([], [], []);
    }

    function View(): Manager
      reads this
    {
      Manager(monitors, windows, win, nextWindow, hasJobs, table,
              active, lockActive, lockEnabled, throttled, dialogUp, timers, out)
    }

    // ----- Jobs ------------------------------------------------------------------

    method WalkTheJobs(op: JobOp, env: Env)
      modifies this`table
      ensures View() == WalkJobs(old(View()), op, env)
    {
      hide Apply, JobOrder, WalkOf;
      if hasJobs {
        var order := JobOrder(View(), env);
        var walk := WalkOf(View(), env);
        var i := 0;
        while i < |order|
          invariant i <= |order|
          invariant ApplyAll(table, op, order[i..], walk) == ApplyAll(old(table), op, order, walk)
        {
          assert order[i..][1..] == order[i + 1..];
          table := Apply(table, op, order[i], walk);
          i := i + 1;
        }
      }
    }

    method SetThrottle(throttled: bool, env: Env)
      modifies this
      ensures View() == SetThrottled(old(View()), throttled, env)
    {
      if this.throttled != throttled {
        this.throttled := throttled;
        if !dialogUp {
          WalkTheJobs(if throttled then OpStop else OpStart, env);
        }
      }
    }

    method CycleJobs(env: Env)
      modifies this
      ensures View() == Cycle(old(View()), env)
    {
      if active && !dialogUp && !throttled {
        WalkTheJobs(OpCycle, env);
      }
    }

    // ----- Locking ---------------------------------------------------------------

    method LockWindows(locked: bool)
      modifies this`win
      ensures win == WithLockEnabled(old(win), windows, locked)
    {
      NoneTouched(win, locked, 0);
      var i := 0;
      while i < |windows|
        invariant i <= |windows|
        invariant win == WithLockEnabled(old(win), windows[..i], locked)
      {
        LockOneMore(old(win), windows[..i], windows[i], locked);
        assert windows[..i] + [windows[i]] == windows[..i + 1];
        if windows[i] in win {
          win := win[windows[i] := win[windows[i]].(lockEnabled := locked)];
        }
        i := i + 1;
      }
      assert windows[..i] == windows;
    }

    method SetLock(locked: bool)
      modifies this
      ensures View() == SetLockActive(old(View()), locked)
    {
      if lockActive != locked {
        lockActive := locked;
        LockWindows(locked);
      }
    }

    method LockTimeoutReached()
      modifies this
      ensures View() == ActivateLockTimeout(old(View()))
    {
      if lockEnabled {
        SetLock(true);
      }
      timers := timers.(lockTimer := None, lapsed := !lockEnabled);
    }

    method ChangeLockTimeout(lockTimeout: int, now: nat)
      modifies this
      ensures View() == SetLockTimeout(old(View()), lockTimeout, now)
    {
      if timers.lockTimeout != lockTimeout {
        timers := timers.(lockTimeout := lockTimeout);
        if active && !lockActive && lockTimeout >= 0 {
          var elapsed := (now / 1000 - timers.activateTime) * 1000;
          if elapsed >= lockTimeout {
            LockTimeoutReached();
          } else {
            timers := timers.(lockTimer := Some(now + (lockTimeout - elapsed)), lapsed := false);
          }
        }
      }
    }

    method DispatchLockTimer(now: nat)
      modifies this
      ensures View() == LockTimerFires(old(View()), now)
    {
      if timers.lockTimer.Some? && timers.lockTimer.value <= now {
        LockTimeoutReached();
      }
    }

    method ChangeCycleTimeout(cycleTimeout: int)
      modifies this
      ensures View() == SetCycleTimeout(old(View()), cycleTimeout)
    {
      if timers.cycleTimeout != cycleTimeout {
        timers := timers.(cycleTimeout := cycleTimeout);
        if active && cycleTimeout >= 0 {
          timers := timers.(cycleTimer := true);
        }
      }
    }

    // ----- The dialog ------------------------------------------------------------

    method LetOnlyOneListen(w: WindowId)
      modifies this`win
      ensures win == WithSensitive(old(win), windows, w)
    {
      NoneTouched(win, false, w);
      var i := 0;
      while i < |windows|
        invariant i <= |windows|
        invariant win == WithSensitive(old(win), windows[..i], w)
      {
        DesensitizeOneMore(old(win), windows[..i], windows[i], w);
        assert windows[..i] + [windows[i]] == windows[..i + 1];
        if windows[i] in win && windows[i] != w {
          win := win[windows[i] := win[windows[i]].(sensitive := false)];
        }
        i := i + 1;
      }
      assert windows[..i] == windows;
    }

    method LetAllListen()
      modifies this`win
      ensures win == AllSensitive(old(win), windows)
    {
      NoneTouched(win, false, 0);
      var i := 0;
      while i < |windows|
        invariant i <= |windows|
        invariant win == AllSensitive(old(win), windows[..i])
      {
        SensitizeOneMore(old(win), windows[..i], windows[i]);
        assert windows[..i] + [windows[i]] == windows[..i + 1];
        if windows[i] in win {
          win := win[windows[i] := win[windows[i]].(sensitive := true)];
        }
        i := i + 1;
      }
      assert windows[..i] == windows;
    }

    method DialogUp(w: WindowId, env: Env)
      modifies this
      ensures View() == HandleDialogUp(old(View()), w, env)
    {
      hide WalkJobs, WithSensitive;
      out := out.(signals := out.signals + [RequestBegin]);
      dialogUp := true;
      LetOnlyOneListen(w);
      if !throttled {
        WalkTheJobs(OpSuspend, env);
      }
    }

    method DialogDown(env: Env)
      modifies this
      ensures View() == HandleDialogDown(old(View()), env)
    {
      hide WalkJobs, AllSensitive;
      LetAllListen();
      dialogUp := false;
      if !throttled {
        WalkTheJobs(OpResume, env);
      }
      out := out.(signals := out.signals + [RequestEnd]);
    }

    method WindowDialogChanged(w: WindowId, up: bool, env: Env)
      requires w in win
      modifies this
      ensures View() == SetDialogUp(old(View()), w, up, env)
    {
      hide HandleDialogUp, HandleDialogDown;
      if win[w].dialogUp != up {
        win := win[w := win[w].(dialogUp := up)];
        if up {
          DialogUp(w, env);
        } else {
          DialogDown(env);
        }
      }
    }

    /** Cancelling an unlock request and destroying a window both take its dialog down. */
    method PopdownDialog(w: WindowId, env: Env)
      modifies this
      ensures View() == Popdown(old(View()), w, env)
    {
      if w in win {
        WindowDialogChanged(w, false, env);
        win := win[w := win[w].(popupIdle := false, lockWatch := false, lockSource := false)];
      }
    }

    method PopdownDialogs(env: Env)
      modifies this
      ensures View() == PopdownAll(old(View()), old(windows), env)
    {
      var l, i := windows, 0;
      while i < |l|
        invariant i <= |l|
        invariant PopdownAll(View(), l[i..], env) == PopdownAll(old(View()), l, env)
      {
        assert l[i..][1..] == l[i + 1..];
        PopdownDialog(l[i], env);
        i := i + 1;
      }
    }

    method WindowRequestUnlock(w: WindowId, env: Env)
      modifies this
      ensures View() == RequestUnlockWindow(old(View()), w, env)
    {
      hide SetDialogUp;
      if w in win && win[w].visible && !win[w].lockWatch {
        if !win[w].lockEnabled {
          out := out.(windowIdles := out.windowIdles + [Token(w, WindowNotLocked)]);
        } else {
          win := win[w := win[w].(popupIdle := true)];
          WindowDialogChanged(w, true, env);
        }
      }
    }

    /** The search keeps the last match and falls back on the first window. */
    method FindWindowAtPointer(pointer: MonitorId) returns (w: WindowId)
      requires windows != []
      ensures w == WindowAtPointer(View(), pointer, |windows|)
      ensures AtPointer(View(), pointer, |windows|, w)
    {
      w := windows[0];
      var i := 0;
      while i < |windows|
        invariant i <= |windows|
        invariant w == WindowAtPointer(View(), pointer, i)
        invariant AtPointer(View(), pointer, i, w)
      {
        if windows[i] in win && win[windows[i]].monitor == pointer {
          w := windows[i];
        }
        i := i + 1;
      }
    }

    method UnlockRequested(env: Env) returns (handled: bool)
      modifies this
      ensures View() == RequestUnlock(old(View()), env)
      ensures handled == old(active && !dialogUp && windows != [])
    {
      if !active || dialogUp || windows == [] {
        return false;
      }
      var w := FindWindowAtPointer(env.pointer);
      WindowRequestUnlock(w, env);
      return true;
    }

    method PopupDialog(w: WindowId, spawned: bool)
      modifies this
      ensures View() == PopupDialogIdle(old(View()), w, spawned)
    {
      if w in win && win[w].popupIdle {
        var x := win[w].(popupIdle := false);
        if spawned {
          x := x.(lockWatch := true, lockSource := true);
        }
        win := win[w := x];
      }
    }

    method DialogPrinted(w: WindowId, line: DialogLine, env: Env)
      modifies this
      ensures View() == LockCommandWatch(old(View()), w, line, env)
    {
      hide FinishDialog;
      if w !in win || !win[w].lockSource || line == OtherLine {
        return;
      }
      if line == ReadError {
        win := win[w := win[w].(lockSource := false)];
        return;
      }
      if line != EndOfOutput {
        win := win[w := win[w].(okResponse := line == ResponseOk)];
      }
      DialogFinished(w, env);
    }

    method DialogFinished(w: WindowId, env: Env)
      requires w in win
      modifies this
      ensures View() == FinishDialog(old(View()), w, env)
    {
      hide Popdown;
      PopdownDialog(w, env);
      if win[w].okResponse {
        out := out.(windowIdles := out.windowIdles + [Token(w, DialogSaidOk)]);
      }
    }

    method WindowDeactivated(i: nat)
      modifies this
      ensures View() == EmitDeactivatedIdle(old(View()), i)
    {
      if i < |out.windowIdles| {
        var t := out.windowIdles[i];
        out := out.(windowIdles := RemoveAt(out.windowIdles, i));
        if t.window in win {
          out := out.(managerIdles := out.managerIdles + [t]);
        }
      }
    }

    // ----- Windows ---------------------------------------------------------------

    method WindowMapped(w: WindowId, env: Env)
      modifies this
      ensures View() == MapEvent(old(View()), w, env)
    {
      if w in win {
        table := MaybeStart(table, w, WalkOf(View(), env));
      }
    }

    method JobOutputClosed(w: WindowId)
      modifies this
      ensures View() == JobWatch(old(View()), w)
    {
      table := JobHup(table, w);
    }

    method ChildExited(pid: nat)
      modifies this
      ensures View() == ChildExit(old(View()), pid)
    {
      table := ChildExits(table, pid);
    }

    method WindowObscured(w: WindowId, obscured: bool, env: Env)
      modifies this
      ensures View() == SetObscured(old(View()), w, obscured, env)
    {
      if w in win && win[w].obscured != obscured {
        win := win[w := win[w].(obscured := obscured)];
        if obscured {
          table := StopFor(table, w);
        } else {
          table := MaybeStart(table, w, WalkOf(View(), env));
          var _ := UnlockRequested(env);
        }
      }
    }

    method WindowShown(w: WindowId, env: Env)
      requires w in win
      modifies this
      ensures View() == ShowWindow(old(View()), w, env)
    {
      win := win[w := win[w].(visible := true)];
      if hasJobs {
        table := table.(jobs := table.jobs[w := NewJob(env.spawns.CommandFor(w))]);
      }
      timers := timers.(activateTime := env.now / 1000);
      if timers.lockTimeout >= 0 {
        timers := timers.(lockTimer := Some(env.now + timers.lockTimeout), lapsed := false);
      }
      if timers.cycleTimeout >= 10000 {
        timers := timers.(cycleTimer := true);
      }
    }

    method CreateWindowFor(monitor: MonitorId, env: Env)
      modifies this
      ensures View() == CreateWindow(old(View()), monitor, env)
    {
      var w := nextWindow;
      nextWindow := w + 1;
      win := win[w := NewWindow(monitor, lockActive)];
      windows := windows + [w];
      if active {
        WindowShown(w, env);
      }
    }

    method ActivateManager(env: Env) returns (ok: bool)
      modifies this
      ensures Outcome(View(), ok) == Activate(old(View()), env)
    {
      if active || !env.grab {
        return false;
      }
      if windows == [] {
        CreateAllWindows(env);
      }
      hasJobs, table := true, table.(jobs := map[]);
      active := true;
      ShowAllWindows(env);
      return true;
    }

    method CreateAllWindows(env: Env)
      modifies this
      ensures View() == CreateWindows(old(View()), old(monitors), env)
    {
      var l, i := monitors, 0;
      while i < |l|
        invariant i <= |l|
        invariant CreateWindows(View(), l[i..], env) == CreateWindows(old(View()), l, env)
      {
        assert l[i..][1..] == l[i + 1..];
        CreateWindowFor(l[i], env);
        i := i + 1;
      }
    }

    method ShowAllWindows(env: Env)
      modifies this
      ensures View() == ShowWindows(old(View()), old(windows), env)
    {
      var l, i := windows, 0;
      while i < |l|
        invariant i <= |l|
        invariant ShowWindows(View(), l[i..], env) == ShowWindows(old(View()), l, env)
      {
        assert l[i..][1..] == l[i + 1..];
        if l[i] in win {
          WindowShown(l[i], env);
        }
        i := i + 1;
      }
    }

    /** Destroying the table removes, and so stops, every job. */
    method StopAllJobs(env: Env)
      modifies this
      ensures View() == StopJobs(old(View()), env)
    {
      WalkTheJobs(OpStop, env);
      hasJobs, table := false, table.(jobs := map[]);
    }

    method DestroyAllWindows(env: Env)
      modifies this
      ensures View() == DestroyWindows(old(View()), env)
    {
      PopdownDialogs(env);
      windows, win := [], map[];
    }

    method DeactivateManager(env: Env) returns (ok: bool)
      modifies this
      ensures Outcome(View(), ok) == Deactivate(old(View()), env)
    {
      hide StopJobs, DestroyWindows;
      if !active {
        return false;
      }
      timers := timers.(lockTimer := None, cycleTimer := false);
      StopAllJobs(env);
      DestroyAllWindows(env);
      active, lockActive, dialogUp := false, false, false;
      timers := timers.(activateTime := 0, lapsed := false);
      return true;
    }

    // ----- Hot-plug --------------------------------------------------------------

    method DisplayMonitorAdded(monitor: MonitorId, at: nat, env: Env)
      modifies this
      ensures View() == MonitorAdded(old(View()), monitor, at, env)
    {
      if monitor !in monitors && at <= |monitors| {
        monitors := monitors[..at] + [monitor] + monitors[at..];
        if windows != [] {
          PopdownDialogs(env);
          CreateWindowFor(monitor, env);
          var _ := UnlockRequested(env);
        }
      }
    }

    method DestroyWindow(w: WindowId, env: Env)
      modifies this
      ensures View() == RemoveWindow(old(View()), w, env)
    {
      hide StopFor, Popdown, Without;
      table := StopFor(table, w);
      table := table.(jobs := table.jobs - {w});
      PopdownDialog(w, env);
      windows := Without(windows, w);
      win := win - {w};
    }

    method DisplayMonitorRemoved(monitor: MonitorId, env: Env)
      modifies this
      ensures View() == MonitorRemoved(old(View()), monitor, env)
    {
      if monitor in monitors && |monitors| != 1 {
        monitors := Without(monitors, monitor);
        ghost var m1 := View();
        var l, i := windows, 0;
        while i < |l|
          invariant i <= |l|
          invariant RemoveWindowsOn(View(), l[i..], monitor, env) == RemoveWindowsOn(m1, l, monitor, env)
        {
          assert l[i..][1..] == l[i + 1..];
          if l[i] in win && win[l[i]].monitor == monitor {
            DestroyWindow(l[i], env);
          }
          i := i + 1;
        }
      }
    }
  }
}
