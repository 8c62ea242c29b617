/** A saver that stays suspended: throttling begins while the unlock dialog is up and is
    lifted after the dialog has closed. */
module ThrottleGap {
  import opened Jobs
  import opened JobTable
  import opened ManagerModel
  import opened ManagerProofs
  import opened ScreensaverModel
  import opened ScreensaverProofs
  import opened ScreensaverRuns
  import opened LockHolds

  // ----- What lifting the throttle does ------------------------------------------

  /** The jobs of windows that are not obscured. */
  function Uncovered(m: Manager): set<WindowId> {
    set w | w in m.table.jobs && w !in Obscured(m)
  }

  predicate Runs(m: Manager, w: WindowId) {
    w in m.table.jobs && m.table.jobs[w].pid > 0 && m.table.jobs[w].status == Running
  }

  /** No dialog, savers throttled, and every saver without a process could be started. */
  ghost predicate Liftable(m: Manager, env: Env) {
    && m.active && m.throttled && !m.dialogUp
    && Startable(m.table, JobOrder(m, env), WalkOf(m.(throttled := false), env))
  }

  lemma OrderCovers(m: Manager, env: Env, now: nat)
    requires Inv(m, now)
    ensures forall w :: w in m.table.jobs ==> w in JobOrder(m, env)
  {
    assert JobsCovered(m);
  }

  lemma LiftIs(m: Manager, env: Env)
    requires m.throttled && !m.dialogUp && m.hasJobs
    ensures var m1 := m.(throttled := false);
            SetThrottled(m, false, env) == m1.(table := ApplyAll(m.table, OpStart, JobOrder(m, env), WalkOf(m1, env)))
  {
    assert JobOrder(m.(throttled := false), env) == JobOrder(m, env);
    hide ApplyAll, JobOrder, WalkOf;
  }

  /** What the invariant says about a throttled saver without a dialog. */
  lemma ThrottledFacts(m: Manager, w: WindowId, env: Env, now: nat)
    requires w in Uncovered(m)
    requires Inv(m, now) && m.active && m.throttled && !m.dialogUp
    ensures m.hasJobs && TableOk(m.table, Obscured(m)) && Quiet(m.table.jobs[w])
    ensures w in JobOrder(m, env) && w !in Obscured(m)
  {
    OrderCovers(m, env, now);
    hide JobOrder, TableOk;
    assert Shape(m) && Exclusion(m);
  }

  lemma UncoveredKept(m: Manager, r: Manager)
    requires r.win == m.win && r.table.jobs.Keys == m.table.jobs.Keys
    ensures Uncovered(r) == Uncovered(m)
  {
  }

  /** Saver by saver: one that is not obscured runs afterwards exactly if it had no process
      before; one that has is suspended and stays so. */
  lemma LiftWakesOne(m: Manager, w: WindowId, env: Env, now: nat)
    requires w in Uncovered(m)
    requires Inv(m, now) && Liftable(m, env)
    ensures Runs(SetThrottled(m, false, env), w) <==> m.table.jobs[w].pid == 0
    ensures Uncovered(SetThrottled(m, false, env)) == Uncovered(m)
  {
    hide Inv, TableOk, ApplyAll, JobOrder, Startable, SetThrottled, Obscured;
    var m1 := m.(throttled := false);
    var order, c := JobOrder(m, env), WalkOf(m1, env);
    ThrottledFacts(m, w, env, now);
    SameObscured(m);
    LiftIs(m, env);
    StartAll(m.table, order, c, w);
    ApplyAllKeeps(m.table, OpStart, order, c);
    hide Walked, WalkOf;
    UncoveredKept(m, SetThrottled(m, false, env));
  }

  lemma SameObscured(m: Manager)
    ensures Obscured(m.(throttled := false)) == Obscured(m)
  {
  }

  /** Lifting the throttle gets every saver running that is not obscured if and only if none
      of them has a process, that is, none was suspended under the dialog. */
  lemma LiftWakesAllIff(m: Manager, env: Env, now: nat)
    requires Inv(m, now) && Liftable(m, env)
    ensures (forall w :: w in Uncovered(m) ==> Runs(SetThrottled(m, false, env), w)) <==>
            (forall w :: w in Uncovered(m) ==> m.table.jobs[w].pid == 0)
  {
    hide Inv, Liftable, SetThrottled, Runs;
    forall w | w in Uncovered(m)
      ensures Runs(SetThrottled(m, false, env), w) <==> m.table.jobs[w].pid == 0
    {
      LiftWakesOne(m, w, env, now);
    }
  }

  // ----- The three callbacks ----------------------------------------------------

  lemma ThrottleUnderDialog(s: Saver, connection: string, cookie: nat, env: Env)
    requires s.m.dialogUp && !s.m.throttled && !s.l.throttled && s.l.throttlers == map[]
    requires FreshCookie(map[], cookie)
    ensures var r := Step(s, Throttle(connection, cookie), env);
            && r.m == s.m.(throttled := true)
            && r.l.throttled && r.l.throttlers == map[cookie := Entry(cookie, connection, 0)]
  {
    hide WalkJobs;
  }

  lemma LowersUnderThrottle(m: Manager, d: WindowId, env: Env)
    requires m.throttled && d in m.win && m.win[d].dialogUp
    ensures var r := Popdown(m, d, env);
            r.table == m.table && !r.dialogUp && r.throttled && r.active == m.active && r.hasJobs == m.hasJobs
  {
    hide WalkJobs, AllSensitive;
  }

  lemma DialogCloses(s: Saver, d: WindowId, env: Env)
    requires s.m.throttled && d in s.m.win && s.m.win[d].dialogUp && s.m.win[d].lockSource
    ensures var r := Step(s, DialogOutput(d, ResponseCancel), env);
            && r.m.table == s.m.table && !r.m.dialogUp && r.m.throttled && r.m.active == s.m.active
            && r.m.hasJobs == s.m.hasJobs && r.l == s.l
  {
    hide Popdown;
    LowersUnderThrottle(s.m.(win := s.m.win[d := s.m.win[d].(okResponse := false)]), d, env.(now := s.now));
  }

  lemma ThrottleLifted(s: Saver, cookie: nat, w: WindowId, env: Env)
    requires s.m.throttled && s.l.throttled && s.l.throttlers.Keys == {cookie} && !s.m.dialogUp
    requires w in s.m.table.jobs && s.m.table.jobs[w].pid > 0
    ensures var r := Step(s, UnThrottle(cookie), env);
            && !r.m.throttled && !r.m.dialogUp && r.m.active == s.m.active
            && w in r.m.table.jobs && r.m.table.jobs[w] == s.m.table.jobs[w]
  {
    var env1 := env.(now := s.now);
    var m1 := s.m.(throttled := false);
    assert s.l.throttlers - {cookie} == map[];
    StartLeavesRunning(m1.table, JobOrder(m1, env1), WalkOf(m1, env1), w);
    hide ApplyAll, JobOrder, WalkOf;
  }

  /** Whatever the state: a saver that has a process when throttling begins under the dialog
      is still suspended when the dialog is gone and the throttle lifted. */
  lemma StaysSuspended(s: Saver, d: WindowId, w: WindowId, connection: string, cookie: nat, env: Env)
    requires s.m.dialogUp && !s.m.throttled && d in s.m.win && s.m.win[d].dialogUp && s.m.win[d].lockSource
    requires w in s.m.table.jobs && s.m.table.jobs[w].pid > 0 && FreshCookie(map[], cookie)
    requires SaverInv(s)
    ensures var s1 := Step(s, Throttle(connection, cookie), env);
            var s2 := Step(s1, DialogOutput(d, ResponseCancel), env);
            var r := Step(s2, UnThrottle(cookie), env).m;
            && !r.throttled && !r.dialogUp && r.active == s.m.active
            && w in r.table.jobs && r.table.jobs[w].pid > 0 && r.table.jobs[w].status == Stopped
  {
    assert Quiet(s.m.table.jobs[w]) && !s.l.throttled && s.l.throttlers == map[] by {
      assert Exclusion(s.m) && Agree(s) && ListenerOk(s.l, s.now);
    }
    hide Step, SaverInv;
    var s1 := Step(s, Throttle(connection, cookie), env);
    ThrottleUnderDialog(s, connection, cookie, env);
    DialogCloses(s1, d, env);
    ThrottleLifted(Step(s1, DialogOutput(d, ResponseCancel), env), cookie, w, env);
  }

  // ----- A run from the start that gets there ------------------------------------

  /** A display with one monitor: window 0, its job and the kernel. */
  predicate OneWindow(m: Manager, x: Window, j: Job, k: Kernel) {
    && m.windows == [0] && m.win == map[0 := x] && m.hasJobs && m.table == Table(map[0 := j], k)
    && m.active && m.lockActive == x.lockEnabled && !m.throttled && m.dialogUp == x.dialogUp
  }

  const Shown: Window := NewWindow(0, false).(visible := true)

  lemma Activates(m: Manager, env: Env)
    requires m.monitors == [0] && m.windows == [] && m.win == map[] && m.nextWindow == 0
    requires !m.active && !m.lockActive && !m.throttled && !m.dialogUp && m.table == Table(map[], Kernel(map[], false))
    requires env.grab && env.spawns.CommandFor(0)
    ensures Activate(m, env).ok && OneWindow(Activate(m, env).m, Shown, NewJob(true), Kernel(map[], false))
  {
    var m1 := CreateWindow(m, 0, env);
    assert CreateWindows(m, m.monitors, env) == m1 by { assert m.monitors[1..] == []; }
    var m2 := m1.(hasJobs := true, table := m1.table.(jobs := map[]), active := true);
    assert ShowWindows(m2, m2.windows, env) == ShowWindow(m2, 0, env) by { assert m2.windows == [0] && m2.windows[1..] == []; }
  }

  lemma StartIsEmpty(prefs: Prefs, now: nat)
    ensures var m: Manager := ScreensaverModel.Start([0], prefs, now).m;
            && m.monitors == [0] && m.windows == [] && m.win == map[] && m.nextWindow == 0
            && !m.active && !m.lockActive && !m.throttled && !m.dialogUp && m.table == Table(map[], Kernel(map[], false))
  {
  }

  lemma Locks(m: Manager, x: Window, j: Job, k: Kernel)
    requires OneWindow(m, x, j, k) && !x.lockEnabled
    ensures OneWindow(SetLockActive(m, true), x.(lockEnabled := true), j, k)
  {
  }

  lemma Starts(m: Manager, x: Window, k: Kernel, pid: nat, env: Env)
    requires OneWindow(m, x, NewJob(true), k) && !x.dialogUp && !x.obscured && SpawnOk(k, pid) && env.spawns.PidFor(0) == pid
    ensures OneWindow(MapEvent(m, 0, env), x, Job(Running, pid, true, true), k.(children := k.children[pid := Executing]))
  {
    assert 0 !in Obscured(m);
  }

  lemma SuspendsOne(m: Manager, j: Job, k: Kernel, env: Env)
    requires m.windows == [0] && m.hasJobs && m.table == Table(map[0 := j], k) && env.order == []
    ensures WalkJobs(m, OpSuspend, env) == m.(table := SuspendFor(m.table, 0, true))
  {
    assert JobOrder(m, env) == [0] by { assert 0 in m.table.jobs.Keys; }
    assert [0][1..] == [];
    assert ApplyAll(m.table, OpSuspend, [0], WalkOf(m, env)) == SuspendFor(m.table, 0, true);
  }

  lemma RequestRaises(m: Manager, x: Window, j: Job, k: Kernel, env: Env)
    requires OneWindow(m, x, j, k) && x.visible && x.lockEnabled && !x.lockWatch && !x.dialogUp
    ensures RequestUnlock(m, env) == WalkJobs(Suspending(m, 0), OpSuspend, env)
  {
    assert WindowAtPointer(m, env.pointer, 1) == 0;
    hide WalkJobs, SetDialogUp, Suspending;
    RaiseIs(m, 0, env);
  }

  lemma SuspendingOne(m: Manager, x: Window, j: Job, k: Kernel)
    requires OneWindow(m, x, j, k) && !x.dialogUp
    ensures OneWindow(Suspending(m, 0), x.(popupIdle := true, dialogUp := true), j, k)
  {
    assert Raised(m, 0) == map[0 := x.(popupIdle := true, dialogUp := true)];
  }

  lemma Raises(m: Manager, x: Window, j: Job, k: Kernel, env: Env) returns (j1: Job, k1: Kernel)
    requires OneWindow(m, x, j, k) && x.visible && x.lockEnabled && !x.lockWatch && !x.dialogUp && env.order == []
    requires j.pid > 0
    ensures j1.pid > 0 && OneWindow(RequestUnlock(m, env), x.(popupIdle := true, dialogUp := true), j1, k1)
  {
    hide WalkJobs, RequestUnlock, Suspending;
    RequestRaises(m, x, j, k, env);
    SuspendingOne(m, x, j, k);
    SuspendsOne(Suspending(m, 0), j, k, env);
    var t := SuspendFor(Table(map[0 := j], k), 0, true);
    assert t.jobs == map[0 := t.jobs[0]];
    j1, k1 := t.jobs[0], t.kernel;
  }

  lemma Popups(m: Manager, x: Window, j: Job, k: Kernel)
    requires OneWindow(m, x, j, k) && x.popupIdle
    ensures OneWindow(PopupDialogIdle(m, 0, true), x.(popupIdle := false, lockWatch := true, lockSource := true), j, k)
  {
  }

  /** What the environment grants: the grab, a theme with a command and a pid for it. */
  predicate Kind(env: Env) {
    env.grab && env.spawns.CommandFor(0) && env.spawns.PidFor(0) > 0 && env.order == []
  }

  lemma ActivatedFromStart(prefs: Prefs, now: nat, env: Env)
    requires Kind(env) && now >= 1000 && !prefs.lockDisabled
    ensures var s := Step(ScreensaverModel.Start([0], prefs, now), SetActiveRequest(true), env);
            OneWindow(s.m, Shown, NewJob(true), Kernel(map[], false)) && !s.lockDisabled
  {
    var s0 := ScreensaverModel.Start([0], prefs, now);
    StartIsEmpty(prefs, now);
    StartOk([0], prefs, now);
    assert !s0.lockDisabled && s0.l.active == s0.m.active;
    hide ScreensaverModel.Start, SaverInv, Activate;
    Activates(s0.m, env.(now := s0.now));
  }

  lemma LockedWindow(s: Saver, x: Window, j: Job, k: Kernel, env: Env)
    requires OneWindow(s.m, x, j, k) && !x.lockEnabled && !s.lockDisabled
    ensures OneWindow(Step(s, LockRequest, env).m, x.(lockEnabled := true), j, k)
  {
    hide ListenerSetActive, SetLockActive;
    Locks(s.m, x, j, k);
  }

  /** Activated, locked, mapped, asked to unlock, with the dialog spawned: the saver has a
      process, suspended under the dialog. */
  lemma UnderDialog(prefs: Prefs, now: nat, env: Env) returns (s: Saver, inputs: seq<Input>)
    requires Kind(env) && now >= 1000 && !prefs.lockDisabled
    ensures s == Run(ScreensaverModel.Start([0], prefs, now), inputs)
    ensures s.m.dialogUp && !s.m.throttled && s.m.active
    ensures 0 in s.m.win && s.m.win[0].dialogUp && s.m.win[0].lockSource
    ensures 0 in s.m.table.jobs && s.m.table.jobs[0].pid > 0
  {
    var s0 := ScreensaverModel.Start([0], prefs, now);
    hide Step, ScreensaverModel.Start;
    ActivatedFromStart(prefs, now, env);
    var s1 := Step(s0, SetActiveRequest(true), env);
    LockedWindow(s1, Shown, NewJob(true), Kernel(map[], false), env);
    var s2 := Step(s1, LockRequest, env);
    s := RaisedFrom(s2, Shown.(lockEnabled := true), env);
    inputs := [Input(SetActiveRequest(true), env), Input(LockRequest, env), Input(WindowMapped(0), env),
               Input(UserActivity, env), Input(PopupIdle(0, true), env)];
    RunFive(s0, inputs);
  }

  lemma RunFive(s: Saver, i: seq<Input>)
    requires |i| == 5
    ensures Run(s, i) == Step(Step(Step(Step(Step(s, i[0].event, i[0].env), i[1].event, i[1].env), i[2].event, i[2].env),
                              i[3].event, i[3].env), i[4].event, i[4].env)
  {
    hide Step;
    assert i[..4][..3] == i[..3] && i[..3][..2] == [i[0], i[1]];
    RunTwo(s, i[0], i[1]);
    assert Run(s, i[..3]) == Step(Run(s, [i[0], i[1]]), i[2].event, i[2].env);
    assert Run(s, i[..4]) == Step(Run(s, i[..3]), i[3].event, i[3].env);
  }

  lemma MappedWindow(s: Saver, x: Window, pid: nat, env: Env)
    requires OneWindow(s.m, x, NewJob(true), Kernel(map[], false)) && !x.dialogUp && !x.obscured
    requires pid > 0 && env.spawns.PidFor(0) == pid
    ensures OneWindow(Step(s, WindowMapped(0), env).m, x, Job(Running, pid, true, true), Kernel(map[pid := Executing], false))
  {
    hide MapEvent;
    Starts(s.m, x, Kernel(map[], false), pid, env.(now := s.now));
  }

  lemma RaisedWindow(s: Saver, x: Window, j: Job, k: Kernel, env: Env) returns (j1: Job, k1: Kernel)
    requires OneWindow(s.m, x, j, k) && x.visible && x.lockEnabled && !x.lockWatch && !x.dialogUp && env.order == []
    requires j.pid > 0
    ensures j1.pid > 0
    ensures OneWindow(Step(s, UserActivity, env).m, x.(popupIdle := true, dialogUp := true), j1, k1)
  {
    hide RequestUnlock;
    j1, k1 := Raises(s.m, x, j, k, env.(now := s.now));
  }

  lemma PoppedWindow(s: Saver, x: Window, j: Job, k: Kernel, env: Env)
    requires OneWindow(s.m, x, j, k) && x.popupIdle
    ensures OneWindow(Step(s, PopupIdle(0, true), env).m, x.(popupIdle := false, lockWatch := true, lockSource := true), j, k)
  {
    hide PopupDialogIdle;
    Popups(s.m, x, j, k);
  }

  lemma RaisedFrom(s: Saver, x: Window, env: Env) returns (r: Saver)
    requires Kind(env) && OneWindow(s.m, x, NewJob(true), Kernel(map[], false))
    requires x == Shown.(lockEnabled := true)
    ensures r == Step(Step(Step(s, WindowMapped(0), env), UserActivity, env), PopupIdle(0, true), env)
    ensures r.m.dialogUp && !r.m.throttled && r.m.active
    ensures 0 in r.m.win && r.m.win[0].dialogUp && r.m.win[0].lockSource
    ensures 0 in r.m.table.jobs && r.m.table.jobs[0].pid > 0
  {
    hide Step;
    var pid := env.spawns.PidFor(0);
    MappedWindow(s, x, pid, env);
    var s1 := Step(s, WindowMapped(0), env);
    var j, k := RaisedWindow(s1, x, Job(Running, pid, true, true), Kernel(map[pid := Executing], false), env);
    var s2 := Step(s1, UserActivity, env);
    PoppedWindow(s2, x.(popupIdle := true, dialogUp := true), j, k, env);
    r := Step(s2, PopupIdle(0, true), env);
  }

  /** A run of eight callbacks from the start after which nothing is throttled, no dialog is
      up, and the saver is still suspended. */
  lemma SuspendedRun(prefs: Prefs, now: nat, env: Env, connection: string, cookie: nat) returns (inputs: seq<Input>)
    requires Kind(env) && now >= 1000 && !prefs.lockDisabled && FreshCookie(map[], cookie)
    ensures var s := Run(ScreensaverModel.Start([0], prefs, now), inputs);
            var r := Step(Step(Step(s, Throttle(connection, cookie), env), DialogOutput(0, ResponseCancel), env),
                          UnThrottle(cookie), env).m;
            && r.active && !r.throttled && !r.dialogUp
            && 0 in r.table.jobs && r.table.jobs[0].pid > 0 && r.table.jobs[0].status == Stopped
  {
    var s0 := ScreensaverModel.Start([0], prefs, now);
    StartOk([0], prefs, now);
    hide Step, ScreensaverModel.Start, Run, SaverInv;
    var s: Saver;
    s, inputs := UnderDialog(prefs, now, env);
    EveryStateOk(s0, inputs, |inputs|);
    assert inputs[..|inputs|] == inputs;
    StaysSuspended(s, 0, 0, connection, cookie, env);
  }
}
