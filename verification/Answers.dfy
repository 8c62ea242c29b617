/** Which steps may make a window remember a positive answer of its dialog, which ids new
    windows get and which windows new tokens name: only the dialog's own RESPONSE=OK line
    is remembered, ids are never reused, and a token names a window that existed when it
    was queued.  One small frame lemma per operation. */
module Answers {
  import opened Options
  import opened JobTable
  import opened ManagerModel
  import opened ScreensaverModel

  /** Every remembered answer of `b` was already remembered in `a`. */
  predicate NoNewAnswers(a: map<WindowId, Window>, b: map<WindowId, Window>) {
    forall w :: w in b && b[w].okResponse ==> w in a && a[w].okResponse
  }

  /** A window of `a`, or one whose id was handed out between `a` and `b`. */
  predicate Known(a: Manager, b: Manager, w: WindowId) {
    w in a.win || a.nextWindow <= w < b.nextWindow
  }

  /** Windows and queued tokens of `b` are old, or come from ids handed out since. */
  predicate Issued(a: Manager, b: Manager) {
    && a.nextWindow <= b.nextWindow
    && (forall w :: w in b.win ==> Known(a, b, w))
    && (forall t :: t in b.out.windowIdles ==> t in a.out.windowIdles || Known(a, b, t.window))
  }

  predicate Tame(a: Manager, b: Manager) {
    NoNewAnswers(a.win, b.win) && Issued(a, b)
  }

  lemma TameTwice(a: Manager, b: Manager, c: Manager)
    requires Tame(a, b) && Tame(b, c)
    ensures Tame(a, c)
  {
  }

  /** Jobs, timers, flags and delivered tokens do not matter. */
  lemma TameOthers(a: Manager, b: Manager)
    requires b.win == a.win && b.nextWindow == a.nextWindow && b.out.windowIdles == a.out.windowIdles
    ensures Tame(a, b)
  {
  }

  /** Only the set of windows matters to what is issued. */
  lemma SameIssued(a: Manager, b: Manager, c: Manager)
    requires b.win.Keys == a.win.Keys && b.nextWindow == a.nextWindow && b.out.windowIdles == a.out.windowIdles
    requires Issued(b, c)
    ensures Issued(a, c)
  {
  }

  lemma DialogDownAnswers(m: Manager, env: Env)
    ensures Tame(m, HandleDialogDown(m, env))
  {
    hide ApplyAll, JobOrder, WalkOf;
  }

  lemma PopdownAnswers(m: Manager, w: WindowId, env: Env)
    ensures Tame(m, Popdown(m, w, env))
  {
    hide HandleDialogDown, HandleDialogUp;
    if w in m.win {
      DialogDownAnswers(m.(win := m.win[w := m.win[w].(dialogUp := false)]), env);
    }
  }

  lemma {:induction false} PopdownAllAnswers(m: Manager, ws: seq<WindowId>, env: Env)
    ensures Tame(m, PopdownAll(m, ws, env))
    decreases |ws|
  {
    TameOthers(m, m);
    hide Tame, Popdown;
    if ws != [] {
      PopdownAnswers(m, ws[0], env);
      PopdownAllAnswers(Popdown(m, ws[0], env), ws[1..], env);
      TameTwice(m, Popdown(m, ws[0], env), PopdownAll(m, ws, env));
    }
  }

  lemma DialogUpAnswers(m: Manager, w: WindowId, env: Env)
    ensures Tame(m, HandleDialogUp(m, w, env))
  {
    hide ApplyAll, JobOrder, WalkOf;
  }

  lemma FlagsAnswers(m: Manager, w: WindowId, m1: Manager, m2: Manager)
    requires w in m.win && m1 == m.(win := m.win[w := m.win[w].(popupIdle := true)])
    requires m2 == m1.(win := m1.win[w := m1.win[w].(dialogUp := true)])
    ensures Tame(m, m1) && Tame(m, m2)
  {
  }

  lemma UnlockWindowAnswers(m: Manager, w: WindowId, env: Env)
    ensures Tame(m, RequestUnlockWindow(m, w, env))
  {
    TameOthers(m, m);
    if w in m.win {
      assert Tame(m, QueueDeactivation(m, w, WindowNotLocked));
      hide HandleDialogUp, HandleDialogDown, Tame;
      var m1 := m.(win := m.win[w := m.win[w].(popupIdle := true)]);
      var m2 := m1.(win := m1.win[w := m1.win[w].(dialogUp := true)]);
      FlagsAnswers(m, w, m1, m2);
      DialogUpAnswers(m2, w, env);
      TameTwice(m, m2, HandleDialogUp(m2, w, env));
    }
  }

  lemma RequestUnlockAnswers(m: Manager, env: Env)
    ensures Tame(m, RequestUnlock(m, env))
  {
    hide RequestUnlockWindow, WindowAtPointer;
    if m.windows != [] {
      UnlockWindowAnswers(m, WindowAtPointer(m, env.pointer, |m.windows|), env);
    }
  }

  lemma CreateWindowAnswers(m: Manager, monitor: MonitorId, env: Env)
    ensures Tame(m, CreateWindow(m, monitor, env))
  {
  }

  lemma {:induction false} CreateWindowsAnswers(m: Manager, monitors: seq<MonitorId>, env: Env)
    ensures Tame(m, CreateWindows(m, monitors, env))
    decreases |monitors|
  {
    if monitors != [] {
      var m1 := CreateWindow(m, monitors[0], env);
      CreateWindowAnswers(m, monitors[0], env);
      hide CreateWindow;
      CreateWindowsAnswers(m1, monitors[1..], env);
    }
  }

  lemma {:induction false} ShowWindowsAnswers(m: Manager, ws: seq<WindowId>, env: Env)
    ensures Tame(m, ShowWindows(m, ws, env))
    decreases |ws|
  {
    if ws != [] {
      ShowWindowsAnswers(if ws[0] in m.win then ShowWindow(m, ws[0], env) else m, ws[1..], env);
    }
  }

  lemma ActivateAnswers(m: Manager, env: Env)
    ensures Tame(m, Activate(m, env).m)
  {
    hide CreateWindows, ShowWindows;
    if !m.active && env.grab {
      var m1 := if m.windows == [] then CreateWindows(m, m.monitors, env) else m;
      CreateWindowsAnswers(m, m.monitors, env);
      var m2 := m1.(hasJobs := true, table := m1.table.(jobs := map[]), active := true);
      ShowWindowsAnswers(m2, m2.windows, env);
    }
  }

  lemma DestroyedAnswers(m: Manager, env: Env)
    ensures Tame(m, DestroyWindows(m, env))
  {
    hide PopdownAll;
    PopdownAllAnswers(m, m.windows, env);
  }

  lemma StoppedAnswers(m: Manager, env: Env)
    ensures Tame(m, StopJobs(m, env))
  {
    hide ApplyAll, JobOrder, WalkOf;
  }

  lemma DeactivateAnswers(m: Manager, env: Env)
    ensures Tame(m, Deactivate(m, env).m)
  {
    hide StopJobs, DestroyWindows;
    var m1 := m.(timers := m.timers.(lockTimer := None, cycleTimer := false));
    StoppedAnswers(m1, env);
    DestroyedAnswers(StopJobs(m1, env), env);
  }

  lemma SetActiveAnswers(m: Manager, active: bool, env: Env)
    ensures Tame(m, SetActive(m, active, env).m)
  {
    hide Activate, Deactivate;
    ActivateAnswers(m, env);
    DeactivateAnswers(m, env);
  }

  lemma RemoveWindowAnswers(m: Manager, w: WindowId, env: Env)
    ensures Tame(m, RemoveWindow(m, w, env))
  {
    hide Popdown, StopFor, Without;
    var t := StopFor(m.table, w);
    var m1 := m.(table := t.(jobs := t.jobs - {w}));
    PopdownAnswers(m1, w, env);
  }

  lemma {:induction false} RemoveWindowsOnAnswers(m: Manager, ws: seq<WindowId>, monitor: MonitorId, env: Env)
    ensures Tame(m, RemoveWindowsOn(m, ws, monitor, env))
    decreases |ws|
  {
    hide RemoveWindow;
    if ws != [] {
      var m1 := if ws[0] in m.win && m.win[ws[0]].monitor == monitor then RemoveWindow(m, ws[0], env) else m;
      RemoveWindowAnswers(m, ws[0], env);
      RemoveWindowsOnAnswers(m1, ws[1..], monitor, env);
    }
  }

  lemma MonitorAddedAnswers(m: Manager, monitor: MonitorId, at: nat, env: Env)
    ensures Tame(m, MonitorAdded(m, monitor, at, env))
  {
    if monitor !in m.monitors && at <= |m.monitors| {
      hide PopdownAll, CreateWindow, RequestUnlock;
      var m1 := m.(monitors := m.monitors[..at] + [monitor] + m.monitors[at..]);
      var m2 := PopdownAll(m1, m1.windows, env);
      var m3 := CreateWindow(m2, monitor, env);
      PopdownAllAnswers(m1, m1.windows, env);
      assert Tame(m, m1) && Tame(m, m2);
      hide Tame;
      CreateWindowAnswers(m2, monitor, env);
      RequestUnlockAnswers(m3, env);
      TameTwice(m, m2, m3);
      TameTwice(m, m3, RequestUnlock(m3, env));
    }
  }

  lemma MonitorRemovedAnswers(m: Manager, monitor: MonitorId, env: Env)
    ensures Tame(m, MonitorRemoved(m, monitor, env))
  {
    hide RemoveWindowsOn;
    RemoveWindowsOnAnswers(m.(monitors := Without(m.monitors, monitor)), m.windows, monitor, env);
  }

  lemma SetObscuredAnswers(m: Manager, w: WindowId, obscured: bool, env: Env)
    ensures Tame(m, SetObscured(m, w, obscured, env))
  {
    hide RequestUnlock, MaybeStart, StopFor;
    if w in m.win {
      var m1 := m.(win := m.win[w := m.win[w].(obscured := obscured)]);
      RequestUnlockAnswers(m1.(table := MaybeStart(m1.table, w, WalkOf(m1, env))), env);
    }
  }

  lemma FinishAnswers(m: Manager, w: WindowId, env: Env)
    requires w in m.win
    ensures Tame(m, FinishDialog(m, w, env))
  {
    hide Popdown;
    PopdownAnswers(m, w, env);
  }

  /** The running dialog of window `w` prints RESPONSE=OK. */
  predicate SaysOk(m: Manager, e: Event, w: WindowId) {
    e == DialogOutput(w, ResponseOk) && w in m.win && m.win[w].lockSource
  }

  /** What is remembered after a step: as before, or by the dialog's own RESPONSE=OK. */
  predicate Remembers(m: Manager, e: Event, r: Manager) {
    forall w :: w in r.win && r.win[w].okResponse ==> (w in m.win && m.win[w].okResponse) || SaysOk(m, e, w)
  }

  lemma ResponseAnswers(m: Manager, w: WindowId, ok: bool, env: Env)
    requires w in m.win && m.win[w].lockSource
    ensures var r := FinishDialog(m.(win := m.win[w := m.win[w].(okResponse := ok)]), w, env);
            Remembers(m, DialogOutput(w, if ok then ResponseOk else ResponseCancel), r) && Issued(m, r)
  {
    var m1 := m.(win := m.win[w := m.win[w].(okResponse := ok)]);
    hide FinishDialog, Issued;
    FinishAnswers(m1, w, env);
    SameIssued(m, m1, FinishDialog(m1, w, env));
  }

  /** A dialog's line may set the answer of its own window, and only to OK. */
  lemma DialogAnswers(m: Manager, w: WindowId, line: DialogLine, env: Env)
    ensures var r := LockCommandWatch(m, w, line, env);
            Remembers(m, DialogOutput(w, line), r) && Issued(m, r)
  {
    TameOthers(m, m);
    hide FinishDialog, Issued;
    if w in m.win && m.win[w].lockSource {
      match line
      case OtherLine =>
      case ReadError => SourceGoneAnswers(m, w);
      case EndOfOutput => FinishAnswers(m, w, env);
      case ResponseOk => ResponseAnswers(m, w, true, env);
      case ResponseCancel => ResponseAnswers(m, w, false, env);
    }
  }

  lemma SourceGoneAnswers(m: Manager, w: WindowId)
    requires w in m.win
    ensures Tame(m, m.(win := m.win[w := m.win[w].(lockSource := false)]))
  {
  }
}
