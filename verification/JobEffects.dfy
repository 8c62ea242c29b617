/** What activation, throttling, cycling, hot-plug and the events of windows bring about:
    which savers are started, with which process, and which timers are armed. */
module JobEffects {
  import opened Options
  import opened Jobs
  import opened JobTable
  import opened JobWalks
  import opened ManagerModel
  import opened ManagerProofs
  import opened ManagerLifecycle
  import opened HotPlug
  import opened ManagerEffects

  // ----- Throttling and cycling ----------------------------------------------------

  /** Throttling ends every saver, lifting it starts those that have no process; under the
      dialog both wait. */
  ghost predicate ThrottleTaken(m: Manager, r: Manager, throttled: bool, env: Env) {
    && r == m.(throttled := throttled, table := r.table)
    && (if m.throttled == throttled || m.dialogUp then r.table == m.table
        else if throttled then NoProcess(r.table) && r.table.kernel.children == map[]
        else AllStarted(m, r, env))
  }

  /** Every job that is not obscured and had no process runs, if all those could be started;
      the others keep what they had. */
  ghost predicate AllStarted(m: Manager, r: Manager, env: Env) {
    && r.table.jobs.Keys == m.table.jobs.Keys
    && (forall w :: w in m.table.jobs && m.table.jobs[w].pid > 0 ==> r.table.jobs[w] == m.table.jobs[w])
    && (Startable(m.table, JobOrder(m, env), Walk(false, Obscured(m), env.spawns)) ==>
          forall w :: w in m.table.jobs && w !in Obscured(m) && m.table.jobs[w].pid == 0 ==> Runs(r.table.jobs[w]))
  }

  lemma WalkStarts(m: Manager, env: Env)
    requires TableOk(m.table, Obscured(m)) && JobsCovered(m) && !m.dialogUp && !m.throttled
    ensures AllStarted(m, WalkJobs(m, OpStart, env), env)
  {
    hide TableOk, JobOrder, ApplyAll, Obscured, Startable;
    OrderCovers(m, env);
    var order, c := JobOrder(m, env), WalkOf(m, env);
    if m.hasJobs {
      ApplyAllKeeps(m.table, OpStart, order, c);
      forall w | w in m.table.jobs && m.table.jobs[w].pid > 0
        ensures ApplyAll(m.table, OpStart, order, c).jobs[w] == m.table.jobs[w]
      {
        StartLeavesRunning(m.table, order, c, w);
      }
      if Startable(m.table, order, c) {
        forall w | w in m.table.jobs && w !in Obscured(m) && m.table.jobs[w].pid == 0
          ensures Runs(ApplyAll(m.table, OpStart, order, c).jobs[w])
        {
          StartAll(m.table, order, c, w);
        }
      }
    }
  }

  lemma WalkStops(m: Manager, env: Env)
    requires TableOk(m.table, Obscured(m)) && JobsCovered(m)
    ensures NoProcess(WalkJobs(m, OpStop, env).table)
    ensures WalkJobs(m, OpStop, env).table.kernel.children == map[]
  {
    WalkKeeps(m, OpStop, env);
    var u := WalkJobs(m, OpStop, env).table;
    hide WalkJobs;
    assert forall p :: p in u.kernel.children ==> Held(u, p);
  }

  lemma ThrottleWalks(m: Manager, throttled: bool, env: Env)
    requires Base(m) && m.throttled != throttled && !m.dialogUp
    ensures ThrottleTaken(m, SetThrottled(m, throttled, env), throttled, env)
  {
    var m1 := m.(throttled := throttled);
    assert Obscured(m1) == Obscured(m) && JobOrder(m1, env) == JobOrder(m, env);
    hide TableOk, DialogOk, SignalsOk, AllQuiet, Obscured, Listed, Covered, ApplyAll, JobOrder, Startable, NoProcess;
    if throttled {
      WalkStops(m1, env);
    } else {
      WalkStarts(m1, env);
    }
  }

  /** Throttling while no dialog is up leaves no saver process, lifting it starts them. */
  lemma ThrottleEnds(m: Manager, throttled: bool, env: Env, now: nat)
    requires Inv(m, now)
    ensures ThrottleTaken(m, SetThrottled(m, throttled, env), throttled, env)
  {
    if m.throttled != throttled && !m.dialogUp {
      hide Base, SetThrottled, ThrottleTaken;
      ThrottleWalks(m, throttled, env);
    } else {
      hide Inv;
    }
  }

  /** Every saver is replaced, if the new ones could be started; while inactive, throttled
      or under the dialog nothing happens. */
  ghost predicate CycleTaken(m: Manager, r: Manager, env: Env) {
    if !m.active || m.dialogUp || m.throttled then r == m
    else
      && r == m.(table := r.table) && r.table.jobs.Keys == m.table.jobs.Keys
      && (Cyclable(m.table, JobOrder(m, env), Walk(false, Obscured(m), env.spawns)) ==>
            forall w :: w in m.table.jobs ==> Cycled(r.table.jobs[w], w, Walk(false, Obscured(m), env.spawns)))
  }

  lemma CycleReplaces(m: Manager, env: Env, now: nat)
    requires Inv(m, now)
    ensures CycleTaken(m, Cycle(m, env), env)
  {
    if m.active && !m.dialogUp && !m.throttled {
      assert m.hasJobs && Base(m) && m.table.jobs.Keys == m.win.Keys by { assert Shape(m); }
      OrderCovers(m, env);
      OrderListed(m, env);
      var order, c := JobOrder(m, env), WalkOf(m, env);
      hide TableOk, DialogOk, SignalsOk, AllQuiet, Obscured, Listed, Covered, ApplyAll, JobOrder, Cyclable, Cycled;
      WalkKeeps(m, OpCycle, env);
      if Cyclable(m.table, order, c) {
        forall w | w in m.table.jobs
          ensures Cycled(ApplyAll(m.table, OpCycle, order, c).jobs[w], w, c)
        {
          CycleAll(m.table, order, c, w);
        }
      }
    }
  }

  lemma OrderListed(m: Manager, env: Env)
    requires WindowsOk(m) && m.table.jobs.Keys == m.win.Keys
    ensures forall w :: w in JobOrder(m, env) ==> w in m.table.jobs
  {
  }

  // ----- Windows ---------------------------------------------------------------------

  /** A shown window starts its saver, unless it has one or something forbids it; no other
      saver is touched. */
  ghost predicate SaverStarted(m: Manager, r: Manager, w: WindowId, env: Env)
    requires w in m.table.jobs
  {
    var j, pid := m.table.jobs[w], env.spawns.PidFor(w);
    var starts := j.pid == 0 && j.hasCommand && !m.dialogUp && !m.throttled && w !in Obscured(m) && SpawnOk(m.table.kernel, pid);
    && r == m.(table := r.table) && r.table.jobs.Keys == m.table.jobs.Keys
    && (forall v :: v in m.table.jobs && v != w ==> r.table.jobs[v] == m.table.jobs[v])
    && (if starts then r.table.jobs[w].pid == pid && Runs(r.table.jobs[w]) else r.table == m.table)
  }

  lemma MapStarts(m: Manager, w: WindowId, env: Env)
    requires w in m.win && w in m.table.jobs
    ensures SaverStarted(m, MapEvent(m, w, env), w, env)
  {
    hide Obscured;
    assert m.table.jobs[w := m.table.jobs[w]] == m.table.jobs;
  }

  /** Covering a window ends its saver; uncovering it starts the saver and asks to unlock. */
  ghost predicate ObscuredTaken(m: Manager, r: Manager, w: WindowId, obscured: bool, env: Env) {
    if w !in m.win || m.win[w].obscured == obscured then r == m
    else
      var m1 := m.(win := m.win[w := m.win[w].(obscured := obscured)]);
      if obscured then
        && r == m1.(table := r.table) && w in r.table.jobs && r.table.jobs[w].pid == 0
        && (forall v :: v in m.table.jobs && v != w ==> v in r.table.jobs && r.table.jobs[v] == m.table.jobs[v])
      else exists m2 :: w in m1.table.jobs && SaverStarted(m1, m2, w, env) && UnlockTaken(m2, r, env.pointer)
  }

  /** What a request to unlock brings about. */
  ghost predicate UnlockTaken(m: Manager, r: Manager, pointer: MonitorId) {
    if m.active && !m.dialogUp then m.windows != [] && AskedAtPointer(m, r, pointer) else r == m
  }

  lemma UnlockTakes(m: Manager, env: Env, now: nat)
    requires Inv(m, now)
    ensures UnlockTaken(m, RequestUnlock(m, env), env.pointer)
  {
    hide Inv, RequestUnlock;
    UnlockRequest(m, env, now);
  }

  lemma Covers(m: Manager, w: WindowId, env: Env, now: nat)
    requires w in m.win && !m.win[w].obscured
    requires Inv(m, now)
    ensures ObscuredTaken(m, SetObscured(m, w, true, env), w, true, env)
  {
    assert w in m.table.jobs && TableOk(m.table, Obscured(m)) by { assert Base(m) && Shape(m); }
    hide Inv, TableOk, Obscured;
    StopForKeeps(m.table, w, Obscured(m));
  }

  lemma Uncovers(m: Manager, w: WindowId, env: Env, now: nat)
    requires w in m.win && m.win[w].obscured
    requires Inv(m, now)
    ensures ObscuredTaken(m, SetObscured(m, w, false, env), w, false, env)
  {
    assert w in m.table.jobs by { assert Shape(m); }
    hide Inv, Obscured, RequestUnlock, SetObscured, SaverStarted, UnlockTaken, MapEvent;
    var m1 := m.(win := m.win[w := m.win[w].(obscured := false)]);
    UncoveredKeeps(m, w, env, now);
    var m2 := MapEvent(m1, w, env);
    MapStarts(m1, w, env);
    UnlockTakes(m2, env, now);
    assert SaverStarted(m1, m2, w, env) && UnlockTaken(m2, RequestUnlock(m2, env), env.pointer);
  }

  lemma ObscureEffect(m: Manager, w: WindowId, obscured: bool, env: Env, now: nat)
    requires Inv(m, now)
    ensures ObscuredTaken(m, SetObscured(m, w, obscured, env), w, obscured, env)
  {
    hide Inv;
    if w in m.win && m.win[w].obscured != obscured {
      hide SetObscured, ObscuredTaken;
      if obscured {
        Covers(m, w, env, now);
      } else {
        Uncovers(m, w, env, now);
      }
    }
  }

  lemma UncoveredKeeps(m: Manager, w: WindowId, env: Env, now: nat)
    requires w in m.win
    requires Inv(m, now)
    ensures var m1 := m.(win := m.win[w := m.win[w].(obscured := false)]);
            var m2 := MapEvent(m1, w, env);
            Inv(m2, now) && (m.win[w].obscured ==> SetObscured(m, w, false, env) == RequestUnlock(m2, env))
  {
    var x := m.win[w].(obscured := false);
    var m1 := m.(win := m.win[w := x]);
    hide Inv, RequestUnlock;
    UnobscureKeeps(m, w, x, m1, now);
    MapEventKeeps(m1, w, env, now);
  }

  // ----- Hot-plug ----------------------------------------------------------------------

  /** The savers of the windows that are still there keep their processes. */
  predicate ProcessesKept(m: Manager, r: Manager) {
    forall w :: w in r.win && w in m.table.jobs && m.table.jobs[w].pid > 0 ==>
      w in r.table.jobs && r.table.jobs[w].pid == m.table.jobs[w].pid
  }

  lemma PopdownProcesses(m: Manager, w: WindowId, env: Env)
    requires w in m.win
    requires Base(m)
    ensures ProcessesKept(m, Popdown(m, w, env))
  {
    hide Base, Popdown, WalkJobs, Resuming, Lowered, WindowsFreed, Startable;
    if m.win[w].dialogUp {
      PopdownEnds(m, w, env);
    } else {
      PopdownIs(m, w, env);
    }
  }

  lemma {:induction false} PopdownAllProcesses(m: Manager, ws: seq<WindowId>, env: Env)
    requires Base(m) && m.active
    requires forall w :: w in ws ==> w in m.win
    ensures ProcessesKept(m, PopdownAll(m, ws, env))
    decreases |ws|
  {
    hide Base, Popdown;
    if ws != [] {
      PopdownSame(m, ws[0], env);
      PopdownProcesses(m, ws[0], env);
      PopdownAllProcesses(Popdown(m, ws[0], env), ws[1..], env);
      hide SameShape;
    }
  }

  lemma RemovalIs(m: Manager, w: WindowId, env: Env)
    ensures var p := Popdown(JobDropped(m, w), w, env);
            var r := RemoveWindow(m, w, env);
            r.table == p.table && w !in r.win && forall x :: x in r.win ==> x in p.win
  {
    hide Popdown, StopFor;
  }

  lemma DroppedProcesses(m: Manager, w: WindowId)
    ensures forall x :: x in m.table.jobs && x != w ==>
              x in JobDropped(m, w).table.jobs && JobDropped(m, w).table.jobs[x] == m.table.jobs[x]
  {
    hide Stop;
  }

  lemma RemovalProcesses(m: Manager, w: WindowId, env: Env)
    requires Base(m) && w in m.win
    ensures ProcessesKept(m, RemoveWindow(m, w, env))
  {
    hide Base, Popdown, RemoveWindow, StopFor;
    JobDroppedKeeps(m, w);
    DroppedProcesses(m, w);
    RemovalIs(m, w, env);
    PopdownProcesses(JobDropped(m, w), w, env);
    hide JobDropped;
  }

  lemma {:induction false} RemovalsProcesses(m: Manager, ws: seq<WindowId>, monitor: MonitorId, env: Env)
    requires Base(m) && Thinned(m)
    ensures ProcessesKept(m, RemoveWindowsOn(m, ws, monitor, env))
    decreases |ws|
  {
    hide Base, RemoveWindow, Thinned, ProcessesKept;
    ProcessesSelf(m);
    if ws != [] {
      var m1 := if ws[0] in m.win && m.win[ws[0]].monitor == monitor then RemoveWindow(m, ws[0], env) else m;
      if ws[0] in m.win && m.win[ws[0]].monitor == monitor {
        RemoveWindowThins(m, ws[0], env);
        RemovalProcesses(m, ws[0], env);
      }
      RemovalsProcesses(m1, ws[1..], monitor, env);
      RemoveWindowsOnRemoves(m1, ws[1..], monitor, env);
      ProcessesSince(m, m1, RemoveWindowsOn(m1, ws[1..], monitor, env));
    }
  }

  lemma ProcessesSelf(m: Manager)
    ensures ProcessesKept(m, m)
  {
  }

  lemma ProcessesSince(a: Manager, b: Manager, c: Manager)
    requires ProcessesKept(a, b) && ProcessesKept(b, c)
    requires forall w :: w in c.win ==> w in b.win
    ensures ProcessesKept(a, c)
  {
  }

  /** On a running saver all dialogs go down, the new monitor gets its window, and unlocking
      is asked for afresh: a locked saver has its dialog up again. */
  ghost predicate PlugTaken(m: Manager, r: Manager, monitor: MonitorId, at: nat, env: Env)
    requires at <= |m.monitors|
  {
    exists p :: Grew(m, p, monitor, at) && JobJoined(m, p, env)
                && p.active && !p.dialogUp && p.lockActive == m.lockActive
                && UnlockTaken(p, r, env.pointer)
  }

  /** The new window has a job, ready to be started; the other savers keep their processes. */
  predicate JobJoined(m: Manager, p: Manager, env: Env) {
    && ProcessesKept(m, p)
    && m.nextWindow in p.table.jobs && p.table.jobs[m.nextWindow] == NewJob(env.spawns.CommandFor(m.nextWindow))
  }

  lemma CreateJoins(m: Manager, monitor: MonitorId, env: Env)
    requires Base(m) && m.active && m.hasJobs
    ensures JobJoined(m, CreateWindow(m, monitor, env), env)
  {
    assert m.nextWindow !in m.win && m.nextWindow !in m.table.jobs;
    hide Base;
    CreateShownIs(m, monitor, env);
    hide CreateWindow, Armed;
  }

  lemma PlugJoins(m: Manager, monitor: MonitorId, at: nat, env: Env)
    requires at <= |m.monitors| && m.active
    requires Base(m) && Shape(m)
    ensures JobJoined(m, Plugged(m, monitor, at, env), env)
  {
    hide Base, PopdownAll, CreateWindow, SameShape;
    var m1 := m.(monitors := m.monitors[..at] + [monitor] + m.monitors[at..]);
    OtherMonitors(m, m1.monitors);
    ListedWindows(m1);
    AllDialogsDown(m1, env);
    PopdownAllProcesses(m1, m1.windows, env);
    CreateJoins(PopdownAll(m1, m1.windows, env), monitor, env);
    JoinedSince(m, PopdownAll(m1, m1.windows, env), Plugged(m, monitor, at, env), env);
  }

  lemma JoinedSince(a: Manager, b: Manager, c: Manager, env: Env)
    requires ProcessesKept(a, b) && JobJoined(b, c, env) && a.nextWindow == b.nextWindow
    requires Base(a) && b.win.Keys == a.win.Keys
    ensures JobJoined(a, c, env)
  {
    assert forall w :: w in a.table.jobs ==> w in a.win;
    hide Base;
  }

  lemma InvParts(m: Manager, now: nat)
    requires Inv(m, now)
    ensures Base(m) && Shape(m)
  {
  }

  lemma PlugAsks(m: Manager, monitor: MonitorId, at: nat, env: Env)
    requires monitor !in m.monitors && at <= |m.monitors| && m.active
    requires Inv(m, env.now)
    ensures PlugTaken(m, MonitorAdded(m, monitor, at, env), monitor, at, env)
    ensures MonitorAdded(m, monitor, at, env).dialogUp == m.lockActive
  {
    assert m.windows != [] by { assert Shape(m); }
    hide Inv, Plugged, RequestUnlock, MonitorAdded;
    var p := Plugged(m, monitor, at, env);
    PluggedKeeps(m, monitor, at, env);
    PluggedIs(m, monitor, at, env);
    assert Base(m) && Shape(m) by { InvParts(m, env.now); }
    hide Base, Shape, JobJoined, Grew;
    PlugJoins(m, monitor, at, env);
    UnlockTakes(p, env, env.now);
  }

  // ----- Activation --------------------------------------------------------------------

  /** The timers of a saver shown at `now`, and its jobs: none started yet, each with the
      command of the theme picked for its window. */
  predicate ReadyToRun(m: Manager, timers: Timers, env: Env) {
    && m.timers == timers.(activateTime := env.now / 1000, lockTimer := Some(env.now + timers.lockTimeout), lapsed := false,
                           cycleTimer := timers.cycleTimeout >= 10000)
    && (forall w :: w in m.win ==> w in m.table.jobs && m.table.jobs[w] == NewJob(env.spawns.CommandFor(w)))
  }

  predicate ShownWith(m: Manager, r: Manager, ws: seq<WindowId>, env: Env) {
    && (forall w :: w in ws ==> w in r.table.jobs && r.table.jobs[w] == NewJob(env.spawns.CommandFor(w)))
    && (forall w :: w in m.table.jobs && w !in ws ==> w in r.table.jobs && r.table.jobs[w] == m.table.jobs[w])
    && r.timers == (if ws == [] then m.timers else ShownTimers(m.timers, env.now))
  }

  function ShownTimers(t: Timers, now: nat): Timers {
    t.(activateTime := now / 1000, lockTimer := Some(now + t.lockTimeout), lapsed := false,
       cycleTimer := t.cycleTimer || t.cycleTimeout >= 10000)
  }

  lemma {:induction false} ShowWindowsWith(m: Manager, ws: seq<WindowId>, env: Env)
    requires m.hasJobs && m.timers.lockTimeout >= 0
    requires forall w :: w in ws ==> w in m.win
    ensures ShownWith(m, ShowWindows(m, ws, env), ws, env)
    decreases |ws|
  {
    if ws != [] {
      var m1 := ShowWindow(m, ws[0], env);
      ShowWindowsWith(m1, ws[1..], env);
      assert forall w :: w in ws <==> w == ws[0] || w in ws[1..];
    }
  }

  /** The state in which the new windows are shown. */
  function Created(m: Manager, env: Env): Manager {
    var m1 := CreateWindows(m, m.monitors, env);
    m1.(hasJobs := true, table := m1.table.(jobs := map[]), active := true)
  }

  lemma CreatedFacts(m: Manager, env: Env)
    requires Ready(m, env.now)
    ensures var m2 := Created(m, env);
            && m2.hasJobs && m2.windows != [] && m2.timers == m.timers && (forall w :: w in m2.windows ==> w in m2.win)
    ensures !m.active && m.windows == [] && m.timers.lockTimeout >= 0 && !m.timers.cycleTimer
  {
    hide TableOk, DialogOk, SignalsOk, AllQuiet, ObscuredIn;
    assert Unshown(m, []);
    CreateWindowsUnshown(m, [], m.monitors, env);
    assert [] + m.monitors == m.monitors;
    hide CreateWindows;
  }

  lemma ActivateIs(m: Manager, env: Env)
    requires !m.active && m.windows == [] && env.grab
    ensures Activate(m, env).m == ShowWindows(Created(m, env), Created(m, env).windows, env)
  {
    hide CreateWindows, ShowWindows;
  }

  lemma ShownMeans(timers: Timers, c: Manager, r: Manager, env: Env)
    requires ShownWith(c, r, c.windows, env) && c.windows != [] && c.timers == timers && !timers.cycleTimer
    requires forall w :: w in r.win ==> w in c.windows
    ensures ReadyToRun(r, timers, env)
  {
  }

  lemma ActivationArms(m: Manager, env: Env)
    requires Ready(m, env.now) && env.grab
    ensures ReadyToRun(Activate(m, env).m, m.timers, env)
  {
    hide Ready, Inv, Created, ShowWindows, Activate, ShownWith, ReadyToRun;
    var c := Created(m, env);
    CreatedFacts(m, env);
    ActivateKeeps(m, env);
    ActivateIs(m, env);
    var r := Activate(m, env).m;
    ActivatedWindows(r, env.now);
    ShowWindowsWith(c, c.windows, env);
    ShowWindowsList(c, c.windows, env);
    ShownMeans(m.timers, c, r, env);
  }

  lemma {:induction false} ShowWindowsList(m: Manager, ws: seq<WindowId>, env: Env)
    ensures ShowWindows(m, ws, env).windows == m.windows
    decreases |ws|
  {
    if ws != [] {
      ShowWindowsList(if ws[0] in m.win then ShowWindow(m, ws[0], env) else m, ws[1..], env);
    }
  }

  lemma ActivatedWindows(m: Manager, now: nat)
    requires Inv(m, now)
    ensures forall w :: w in m.win ==> w in m.windows
  {
  }
}
