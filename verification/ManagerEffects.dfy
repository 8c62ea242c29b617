/** What the manager's callbacks bring about: the dialog comes up on the right window and
    goes away when it ends, and the savers stop, go on and start again. */
module ManagerEffects {
  import opened Jobs
  import opened JobTable
  import opened JobWalks
  import opened ManagerModel
  import opened ManagerProofs

  // ----- The jobs ----------------------------------------------------------------

  /** No job has gained or lost its process; all that have one are stopped. */
  predicate AllSuspended(m: Manager, r: Manager) {
    && r.table.jobs.Keys == m.table.jobs.Keys
    && (forall w :: w in m.table.jobs ==> r.table.jobs[w] == Signalled(m.table.jobs[w], true))
  }

  /** All jobs that have a process keep it and run again; all others that are not obscured
      have been started, if they could be. */
  ghost predicate AllResumed(m: Manager, r: Manager, env: Env) {
    && r.table.jobs.Keys == m.table.jobs.Keys
    && (forall w :: w in m.table.jobs && m.table.jobs[w].pid > 0 ==> r.table.jobs[w] == m.table.jobs[w].(status := Running))
    && (Startable(m.table, JobOrder(m, env), Walk(false, Obscured(m), env.spawns)) ==>
          forall w :: w in m.table.jobs && w !in Obscured(m) ==>
            Runs(r.table.jobs[w])
            && (m.table.jobs[w].pid == 0 ==> r.table.jobs[w].pid == env.spawns.PidFor(w)))
  }

  lemma OrderCovers(m: Manager, env: Env)
    requires JobsCovered(m)
    ensures forall w :: w in m.table.jobs ==> w in JobOrder(m, env)
  {
  }

  lemma WalkSuspends(m: Manager, env: Env)
    requires TableOk(m.table, Obscured(m)) && JobsCovered(m)
    ensures AllSuspended(m, WalkJobs(m, OpSuspend, env))
  {
    hide TableOk, JobOrder, ApplyAll, Obscured;
    OrderCovers(m, env);
    var order, c := JobOrder(m, env), WalkOf(m, env);
    if m.hasJobs {
      forall w | w in m.table.jobs
        ensures var u := ApplyAll(m.table, OpSuspend, order, c);
                w in u.jobs && u.jobs[w] == Signalled(m.table.jobs[w], true)
      {
        SignalAll(m.table, OpSuspend, order, c, w);
      }
      ApplyAllKeeps(m.table, OpSuspend, order, c);
    }
  }

  lemma WalkResumes(m: Manager, env: Env)
    requires TableOk(m.table, Obscured(m)) && JobsCovered(m) && !m.dialogUp && !m.throttled
    ensures AllResumed(m, WalkJobs(m, OpResume, env), env)
  {
    hide TableOk, JobOrder, ApplyAll, Obscured, Startable;
    OrderCovers(m, env);
    var order, c := JobOrder(m, env), WalkOf(m, env);
    if m.hasJobs {
      ApplyAllKeeps(m.table, OpResume, order, c);
      forall w | w in m.table.jobs && m.table.jobs[w].pid > 0
        ensures ApplyAll(m.table, OpResume, order, c).jobs[w] == m.table.jobs[w].(status := Running)
      {
        SignalAll(m.table, OpResume, order, c, w);
      }
      if Startable(m.table, order, c) {
        forall w | w in m.table.jobs && w !in Obscured(m)
          ensures var j := ApplyAll(m.table, OpResume, order, c).jobs[w];
                  Runs(j) && (m.table.jobs[w].pid == 0 ==> j.pid == env.spawns.PidFor(w))
        {
          ResumeAll(m.table, order, c, w);
        }
      }
    }
  }

  // ----- A request to unlock -----------------------------------------------------

  /** Window `w`, and no other, has the dialog; its process is still to be spawned, only
      this window takes input, and one authentication request has begun. */
  predicate DialogOn(m: Manager, r: Manager, w: WindowId) {
    && r == m.(dialogUp := true, win := r.win, table := r.table, out := m.out.(signals := m.out.signals + [RequestBegin]))
    && RaisedFlags(m, r.win, w)
  }

  predicate RaisedFlags(m: Manager, win: map<WindowId, Window>, w: WindowId) {
    && win.Keys == m.win.Keys && w in win
    && (forall x :: x in win ==> win[x] == m.win[x].(dialogUp := x == w, sensitive := x == w, popupIdle := x == w))
  }

  /** A request to unlock on an active saver without a dialog: the window under the mouse asks
      the user, with the savers suspended, or queues its deactivation if it is not locked. */
  ghost predicate UnlockAsked(m: Manager, r: Manager, w: WindowId) {
    if m.lockActive then
      DialogOn(m, r, w) && (if m.throttled then r.table == m.table else AllSuspended(m, r))
    else r == m.(out := m.out.(windowIdles := m.out.windowIdles + [Token(w, WindowNotLocked)]))
  }

  ghost predicate AskedAtPointer(m: Manager, r: Manager, pointer: MonitorId)
    requires m.windows != []
  {
    exists w :: w in m.win && AtPointer(m, pointer, |m.windows|, w) && UnlockAsked(m, r, w)
  }

  lemma RaisedSuspends(m: Manager, w: WindowId, env: Env)
    requires w in m.win && !m.dialogUp
    requires Base(m)
    ensures var r := WalkJobs(Suspending(m, w), OpSuspend, env);
            r == Suspending(m, w).(table := r.table) && AllSuspended(m, r)
  {
    RaisedOk(m, w);
    hide TableOk, DialogOk, SignalsOk, Raised, WalkJobs, AllQuiet, ObscuredIn, Listed, Covered;
    WalkSuspends(Suspending(m, w), env);
    WalkKeeps(Suspending(m, w), OpSuspend, env);
  }

  lemma RaisedWindows(m: Manager, w: WindowId)
    requires w in m.win && !m.dialogUp
    requires Base(m)
    ensures !m.win[w].dialogUp && RaisedFlags(m, Raised(m, w), w)
  {
    assert forall x :: x in m.win && m.win[x].dialogUp ==> SomeDialog(m.win);
  }

  /** Raising the dialog on a window. */
  lemma RaiseAsks(m: Manager, w: WindowId, env: Env)
    requires w in m.win && !m.dialogUp && m.active && m.lockActive
    requires Base(m)
    ensures var r := SetDialogUp(m.(win := m.win[w := m.win[w].(popupIdle := true)]), w, true, env);
            UnlockAsked(m, r, w)
  {
    hide Base, Raised, WalkJobs, SetDialogUp, AllSuspended, RaisedFlags;
    RaisedWindows(m, w);
    RaiseIs(m, w, env);
    RaisedSuspends(m, w, env);
  }

  lemma UnlockWindow(m: Manager, w: WindowId, env: Env, now: nat)
    requires Inv(m, now) && m.active && !m.dialogUp && w in m.win
    ensures UnlockAsked(m, RequestUnlockWindow(m, w, env), w)
  {
    assert m.win[w].visible && m.win[w].lockEnabled == m.lockActive by { assert Shape(m); }
    assert !m.win[w].dialogUp && !m.win[w].lockWatch by {
      assert Base(m) && DialogOk(m.win, m.dialogUp);
      assert m.win[w].dialogUp ==> SomeDialog(m.win);
    }
    if m.lockActive {
      RaiseAsks(m, w, env);
    }
    hide Base, Shape, MonitorsOk, TimersOk, SetDialogUp, DialogOn, AllSuspended;
  }

  /** The request reaches the window under the mouse.  While inactive or with a dialog up it
      is ignored. */
  lemma UnlockRequest(m: Manager, env: Env, now: nat)
    requires Inv(m, now)
    ensures m.active ==> m.windows != []
    ensures var r := RequestUnlock(m, env);
            if m.active && !m.dialogUp then AskedAtPointer(m, r, env.pointer) else r == m
  {
    assert m.active ==> m.windows != [] by { assert Shape(m); }
    if m.active && !m.dialogUp {
      var w := WindowAtPointer(m, env.pointer, |m.windows|);
      PointerWindowListed(m, env.pointer, |m.windows|);
      assert w in m.win by { assert WindowsOk(m); }
      UnlockWindow(m, w, env, now);
      hide Inv, UnlockAsked, AtPointer, WindowAtPointer, RequestUnlockWindow;
      assert RequestUnlock(m, env) == RequestUnlockWindow(m, w, env);
    }
  }

  // ----- The end of a dialog -----------------------------------------------------

  /** A window without a dialog, pending, watched or up. */
  function WithoutDialog(x: Window): Window {
    x.(dialogUp := false, sensitive := true, popupIdle := false, lockWatch := false, lockSource := false)
  }

  /** The dialog of window `w` is gone from the screen with everything that belongs to it,
      its request has ended, and unless savers are throttled all of them go on. */
  ghost predicate DialogOver(m: Manager, r: Manager, w: WindowId, ok: bool, env: Env) {
    && r == m.(dialogUp := false, win := r.win, table := r.table,
               out := m.out.(windowIdles := r.out.windowIdles, signals := m.out.signals + [RequestEnd]))
    && WindowsFreed(m.win, r.win, w, ok)
    && (if m.throttled then r.table == m.table else AllResumed(m, r, env))
  }

  /** All windows are without a dialog, and `w` remembers the answer. */
  predicate WindowsFreed(before: map<WindowId, Window>, after: map<WindowId, Window>, w: WindowId, ok: bool) {
    && after.Keys == before.Keys
    && (forall x :: x in before ==>
          after[x] == WithoutDialog(before[x]).(okResponse := if x == w then ok else before[x].okResponse))
  }

  lemma FreedSince(a: map<WindowId, Window>, b: map<WindowId, Window>, c: map<WindowId, Window>, w: WindowId, x: Window)
    requires w in a && x == a[w].(okResponse := x.okResponse) && b == a[w := x]
    requires WindowsFreed(b, c, w, x.okResponse)
    ensures WindowsFreed(a, c, w, x.okResponse)
  {
  }

  lemma DownMeans(m: Manager, w: WindowId)
    requires Base(m) && w in m.win && m.win[w].dialogUp
    ensures m.dialogUp && WindowsFreed(m.win, Lowered(m, w), w, m.win[w].okResponse)
  {
    LoweredOk(m, w);
    hide Lowered;
    assert SomeDialog(m.win);
  }

  /** Resuming looks at the jobs and the obscured windows only. */
  lemma SameWalk(m: Manager, a: Manager, b: Manager, r: Manager, env: Env)
    requires a.table == m.table && a.windows == m.windows && Obscured(a) == Obscured(m)
    requires AllResumed(a, b, env) && r.table == b.table
    ensures AllResumed(m, r, env)
  {
    hide Startable, Obscured;
    assert JobOrder(a, env) == JobOrder(m, env);
  }

  lemma LoweredResumes(m: Manager, w: WindowId, env: Env, r: Manager)
    requires w in m.win && !m.throttled && r.table == WalkJobs(Resuming(m, w), OpResume, env).table
    requires Base(m)
    ensures AllResumed(m, r, env)
  {
    ResumingSame(m, w);
    hide TableOk, DialogOk, SignalsOk, WalkJobs, AllQuiet, ObscuredIn, Listed, AllSensitive, AllResumed;
    WalkResumes(Resuming(m, w), env);
    SameWalk(m, Resuming(m, w), WalkJobs(Resuming(m, w), OpResume, env), r, env);
  }

  /** Taking down the dialog that is up. */
  lemma PopdownEnds(m: Manager, w: WindowId, env: Env)
    requires w in m.win && m.win[w].dialogUp
    requires Base(m)
    ensures DialogOver(m, Popdown(m, w, env), w, m.win[w].okResponse, env)
  {
    var r := Popdown(m, w, env);
    PopdownKeeps(m, w, env);
    PopdownIs(m, w, env);
    hide Base, Popdown, Lowered, WalkJobs, Resuming, AllResumed, WindowsFreed;
    DownMeans(m, w);
    if !m.throttled {
      LoweredResumes(m, w, env, r);
    }
  }

  /** What one line from the dialog of window `w` brings about. */
  ghost predicate LineTaken(m: Manager, r: Manager, w: WindowId, line: DialogLine, env: Env) {
    if w !in m.win || !m.win[w].lockSource then r == m
    else if EndsDialog(line) then
      var ok := line == ResponseOk || (line == EndOfOutput && m.win[w].okResponse);
      && DialogOver(m, r, w, ok, env)
      && r.out.windowIdles == m.out.windowIdles + (if ok then [Token(w, DialogSaidOk)] else [])
    else r == m.(win := m.win[w := m.win[w].(lockSource := line != ReadError)])
  }

  /** The window remembers an answer before its dialog is taken down. */
  lemma Remembering(m: Manager, w: WindowId, x: Window, now: nat)
    requires w in m.win && x == m.win[w].(okResponse := x.okResponse)
    requires Inv(m, now) && m.win[w].lockSource
    ensures var m1 := m.(win := m.win[w := x]);
            Base(m1) && m1.win[w].dialogUp && Obscured(m1) == Obscured(m)
  {
    LiveWindow(m, w, now);
    assert Base(m);
    assert DialogOk(m.win, m.dialogUp);
    ReplaceOk(m.win, w, x, m.dialogUp);
    hide Inv, Base;
    TweakKeeps(m, w, x, now);
    BaseOf(m.(win := m.win[w := x]), now);
  }

  lemma BaseOf(m: Manager, now: nat)
    requires Inv(m, now)
    ensures Base(m)
  {
  }

  lemma FinishEnds(m: Manager, w: WindowId, x: Window, env: Env, now: nat)
    requires w in m.win && x == m.win[w].(okResponse := x.okResponse)
    requires Inv(m, now) && m.win[w].lockSource
    ensures var r := FinishDialog(m.(win := m.win[w := x]), w, env);
            && DialogOver(m, r, w, x.okResponse, env)
            && r.out.windowIdles == m.out.windowIdles + (if x.okResponse then [Token(w, DialogSaidOk)] else [])
  {
    var m1 := m.(win := m.win[w := x]);
    hide Inv, Base, Obscured, Popdown, AllResumed, WindowsFreed;
    Remembering(m, w, x, now);
    PopdownIdles(m1, w, env);
    PopdownEnds(m1, w, env);
    var r := FinishDialog(m1, w, env);
    FreedSince(m.win, m1.win, r.win, w, x);
    if !m.throttled {
      SameWalk(m, m1, Popdown(m1, w, env), r, env);
    }
  }

  lemma PopdownIdles(m: Manager, w: WindowId, env: Env)
    requires w in m.win
    requires Base(m)
    ensures Popdown(m, w, env).out.windowIdles == m.out.windowIdles
  {
    hide Base, Popdown;
    PopdownKeeps(m, w, env);
  }

  lemma FinishIs(m: Manager, w: WindowId, line: DialogLine, x: Window, env: Env)
    requires w in m.win && m.win[w].lockSource && EndsDialog(line)
    requires x == m.win[w].(okResponse := line == ResponseOk || (line == EndOfOutput && m.win[w].okResponse))
    ensures LockCommandWatch(m, w, line, env) == FinishDialog(m.(win := m.win[w := x]), w, env)
  {
    hide FinishDialog;
    assert line == EndOfOutput ==> m.win[w := x] == m.win;
  }

  lemma OtherLines(m: Manager, w: WindowId, line: DialogLine, env: Env)
    requires w in m.win && m.win[w].lockSource && !EndsDialog(line)
    ensures LockCommandWatch(m, w, line, env) == m.(win := m.win[w := m.win[w].(lockSource := line != ReadError)])
  {
    hide FinishDialog;
    assert m.win[w := m.win[w].(lockSource := true)] == m.win;
  }

  /** A dialog that answers, or whose output ends, is gone with everything that belongs to
      it, and the savers go on; any other line leaves dialogs, jobs and signals alone. */
  lemma DialogEnds(m: Manager, w: WindowId, line: DialogLine, env: Env, now: nat)
    requires Inv(m, now)
    ensures LineTaken(m, LockCommandWatch(m, w, line, env), w, line, env)
  {
    hide Inv, FinishDialog, DialogOver;
    if w in m.win && m.win[w].lockSource {
      hide LockCommandWatch;
      if EndsDialog(line) {
        var x := m.win[w].(okResponse := line == ResponseOk || (line == EndOfOutput && m.win[w].okResponse));
        FinishIs(m, w, line, x, env);
        FinishEnds(m, w, x, env, now);
      } else {
        OtherLines(m, w, line, env);
      }
    }
  }
}
