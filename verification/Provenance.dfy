/** Theorems about whole runs: what holds in every state, why the saver was ever
    activated, and where every deactivation comes from. */
module Provenance {
  import opened Options
  import Jobs
  import opened JobTable
  import opened ManagerModel
  import opened ManagerProofs
  import opened ScreensaverModel
  import opened ScreensaverProofs
  import opened ScreensaverRuns
  import opened Answers
  import opened CallbackAnswers

  // ----- Every state of every run ----------------------------------------------

  /** Component agreement, whatever happened before; the start times are set exactly while
      their flags are. */
  lemma ComponentsAgree(monitors: seq<MonitorId>, prefs: Prefs, now: nat, inputs: seq<Input>, i: nat)
    requires Distinct(monitors) && monitors != [] && now >= 1000 && i <= |inputs|
    ensures var s := At(Start(monitors, prefs, now), inputs, i);
            && s.l.active == s.m.active == !s.w.active
            && (s.l.active ==> s.l.sessionIdle)
            && (s.l.sessionIdle && !s.l.active ==> s.l.idleWhileDisabled)
            && s.m.throttled == s.l.throttled == (s.l.throttlers != map[])
            && (s.m.lockActive ==> s.m.active)
            && (s.l.active <==> s.l.activeStart != 0) && (s.l.sessionIdle <==> s.l.idleStart != 0)
            && 0 <= s.l.activeStart <= s.now / 1000 && 0 <= s.l.idleStart <= s.now / 1000
  {
    StartOk(monitors, prefs, now);
    EveryStateOk(Start(monitors, prefs, now), inputs, i);
    hide At, Start, WindowsOk, DialogOk, SignalsOk, TableOk, LedgerOk, KeysOk;
  }

  /** The ledger: table keys are their entries' cookies, and the session manager holds for
      us exactly the proxied inhibits of the table, one for one, and the leaked ones. */
  lemma LedgerBalances(monitors: seq<MonitorId>, prefs: Prefs, now: nat, inputs: seq<Input>, i: nat)
    requires Distinct(monitors) && monitors != [] && now >= 1000 && i <= |inputs|
    ensures var l := At(Start(monitors, prefs, now), inputs, i).l;
            && KeysOk(l.inhibitors) && KeysOk(l.throttlers)
            && (forall f :: f in l.session && f !in l.leaked <==> f != 0 && Proxied(l.inhibitors, f))
            && (forall c, d :: c in l.inhibitors && d in l.inhibitors && c != d ==>
                  l.inhibitors[c].foreign == 0 || l.inhibitors[c].foreign != l.inhibitors[d].foreign)
            && l.leaked <= l.session
  {
    StartOk(monitors, prefs, now);
    EveryStateOk(Start(monitors, prefs, now), inputs, i);
    var l := At(Start(monitors, prefs, now), inputs, i).l;
    hide At, Start, Inv, KeysOk, StartsOk;
    assert LedgerOk(l.inhibitors, l.session, l.leaked);
    forall f ensures f in l.session && f !in l.leaked <==> f != 0 && Proxied(l.inhibitors, f) {
      if f != 0 && Proxied(l.inhibitors, f) {
        var c :| c in l.inhibitors && l.inhibitors[c].foreign == f;
      }
    }
  }

  /** The lock deadline: an unlocked screen has its lock timer due within a second of
      activation time plus timeout, or that time has passed and the saver has lapsed. */
  lemma DeadlineAlwaysSet(monitors: seq<MonitorId>, prefs: Prefs, now: nat, inputs: seq<Input>, i: nat)
    requires Distinct(monitors) && monitors != [] && now >= 1000 && i <= |inputs|
    ensures var s := At(Start(monitors, prefs, now), inputs, i);
            var t := s.m.timers;
            var deadline := 1000 * t.activateTime + t.lockTimeout;
            s.m.active && !s.m.lockActive ==>
              && 1000 * t.activateTime <= s.now
              && (if t.lapsed then t.lockTimer == None && deadline <= s.now
                  else t.lockTimer.Some? && deadline <= t.lockTimer.value < deadline + 1000)
  {
    StartOk(monitors, prefs, now);
    EveryStateOk(Start(monitors, prefs, now), inputs, i);
    hide At, Start, Base, Shape, MonitorsOk, ListenerOk;
  }

  predicate Lapsed(m: Manager) {
    m.active && m.timers.lapsed
  }

  /** Callback `j` let the timeout run out, with locking disabled. */
  ghost predicate LapsesAt(s0: Saver, inputs: seq<Input>, j: nat)
    requires j < |inputs|
  {
    var s, r := At(s0, inputs, j), At(s0, inputs, j + 1);
    !Lapsed(s.m) && Lapsed(r.m) && !r.m.lockEnabled
  }

  ghost predicate LapsedSince(s0: Saver, inputs: seq<Input>, j: nat, i: nat)
    requires j <= i <= |inputs|
  {
    forall k {:trigger At(s0, inputs, k)} :: j < k <= i ==> Lapsed(At(s0, inputs, k).m)
  }

  /** A lapse was recorded earlier in the same activation, by a callback that found locking
      disabled; ever since the saver was active and lapsed. */
  lemma {:induction false} LapseTrace(s0: Saver, inputs: seq<Input>, i: nat) returns (j: nat)
    requires SaverInv(s0) && !Lapsed(s0.m) && i <= |inputs|
    requires Lapsed(At(s0, inputs, i).m)
    ensures j < i && LapsesAt(s0, inputs, j) && LapsedSince(s0, inputs, j, i)
    decreases i
  {
    hide At, SaverInv;
    FirstAt(s0, inputs);
    LockingOfRun(s0, inputs, i - 1);
    EveryStateOk(s0, inputs, i - 1);
    if Lapsed(At(s0, inputs, i - 1).m) {
      j := LapseTrace(s0, inputs, i - 1);
    } else {
      j := i - 1;
      LapseNeedsActivity(At(s0, inputs, j));
    }
  }

  lemma LapseNeedsActivity(s: Saver)
    requires SaverInv(s) && !Lapsed(s.m)
    ensures !s.m.timers.lapsed
  {
    assert TimersOk(s.m, s.now);
  }

  /** While throttled or under the dialog no saver process executes; an obscured window's
      job has no process; while the saver is inactive there is no child process at all. */
  lemma NoSaverExecutes(monitors: seq<MonitorId>, prefs: Prefs, now: nat, inputs: seq<Input>, i: nat)
    requires Distinct(monitors) && monitors != [] && now >= 1000 && i <= |inputs|
    ensures var m := At(Start(monitors, prefs, now), inputs, i).m;
            var children := m.table.kernel.children;
            && (m.throttled || m.dialogUp ==> forall p :: p in children ==> children[p] != Jobs.Executing)
            && (forall w :: w in m.win && m.win[w].obscured && w in m.table.jobs ==> m.table.jobs[w].pid == 0)
            && (!m.active ==> children == map[])
            && !m.table.kernel.stuck
  {
    StartOk(monitors, prefs, now);
    EveryStateOk(Start(monitors, prefs, now), inputs, i);
    var m := At(Start(monitors, prefs, now), inputs, i).m;
    hide At, Start, WindowsOk, DialogOk, SignalsOk, ListenerOk, TimersOk, MonitorsOk;
    if m.throttled || m.dialogUp {
      QuietTableHasNoExecutingChild(m.table, Obscured(m));
    }
  }

  /** At most one window has its dialog up, the manager's flag says whether one does, the
      insensitive windows are exactly the others, and requests begin and end in turn. */
  lemma OneDialogAtMost(monitors: seq<MonitorId>, prefs: Prefs, now: nat, inputs: seq<Input>, i: nat)
    requires Distinct(monitors) && monitors != [] && now >= 1000 && i <= |inputs|
    ensures var m := At(Start(monitors, prefs, now), inputs, i).m;
            && (forall v, w :: v in m.win && w in m.win && m.win[v].dialogUp && m.win[w].dialogUp ==> v == w)
            && (m.dialogUp <==> exists w :: w in m.win && m.win[w].dialogUp)
            && (forall w :: w in m.win ==> m.win[w].sensitive == (!m.dialogUp || m.win[w].dialogUp))
            && (forall k :: 0 <= k < |m.out.signals| ==>
                  m.out.signals[k] == if k % 2 == 0 then RequestBegin else RequestEnd)
            && (m.dialogUp <==> |m.out.signals| % 2 == 1)
  {
    StartOk(monitors, prefs, now);
    EveryStateOk(Start(monitors, prefs, now), inputs, i);
    hide At, Start, WindowsOk, TableOk, ListenerOk, TimersOk, MonitorsOk, Shape;
  }

  /** While active there is one window and one job per monitor, all locked alike; while
      inactive there are no windows, jobs or timers. */
  lemma WindowsMatchMonitors(monitors: seq<MonitorId>, prefs: Prefs, now: nat, inputs: seq<Input>, i: nat)
    requires Distinct(monitors) && monitors != [] && now >= 1000 && i <= |inputs|
    ensures var m := At(Start(monitors, prefs, now), inputs, i).m;
            if m.active then
              && (forall w :: w in m.win <==> w in m.windows)
              && m.table.jobs.Keys == m.win.Keys
              && (forall w :: w in m.win ==> m.win[w].monitor in m.monitors && m.win[w].lockEnabled == m.lockActive)
              && (forall v, w :: v in m.win && w in m.win && m.win[v].monitor == m.win[w].monitor ==> v == w)
              && (forall mon :: mon in m.monitors ==> exists w :: w in m.win && m.win[w].monitor == mon)
            else
              m.windows == [] && m.win == map[] && m.table.jobs == map[]
              && m.timers.lockTimer == None && !m.timers.cycleTimer && !m.lockActive
  {
    StartOk(monitors, prefs, now);
    EveryStateOk(Start(monitors, prefs, now), inputs, i);
    var m := At(Start(monitors, prefs, now), inputs, i).m;
    hide At, Start, DialogOk, SignalsOk, TableOk, ListenerOk, TimersOk;
    if m.active {
      forall mon | mon in m.monitors
        ensures exists w :: w in m.win && m.win[w].monitor == mon
      {
        assert HasWindow(m, mon);
      }
    }
  }

  /** The unreaped children are exactly the positive pids in the jobs table, one each. */
  lemma ChildrenConserved(monitors: seq<MonitorId>, prefs: Prefs, now: nat, inputs: seq<Input>, i: nat)
    requires Distinct(monitors) && monitors != [] && now >= 1000 && i <= |inputs|
    ensures var t := At(Start(monitors, prefs, now), inputs, i).m.table;
            && (forall p :: p in t.kernel.children <==> p > 0 && Held(t, p))
            && (forall v, w :: v in t.jobs && w in t.jobs && t.jobs[v].pid > 0 && t.jobs[v].pid == t.jobs[w].pid ==> v == w)
  {
    StartOk(monitors, prefs, now);
    EveryStateOk(Start(monitors, prefs, now), inputs, i);
    var t := At(Start(monitors, prefs, now), inputs, i).m.table;
    hide At, Start, WindowsOk, DialogOk, SignalsOk, ListenerOk, TimersOk, MonitorsOk, Shape;
    forall p
      ensures p in t.kernel.children <==> p > 0 && Held(t, p)
    {
      if p > 0 && Held(t, p) {
        var w :| w in t.jobs && t.jobs[w].pid == p;
        assert Jobs.JobOk(t.jobs[w], t.kernel);
      }
    }
  }

  /** Inhibited idle activation: whenever a step activates the saver, either it was asked
      for outright, or nothing inhibits it and activation is enabled. */
  lemma ActivationAllowed(s0: Saver, inputs: seq<Input>, i: nat)
    requires SaverInv(s0) && i < |inputs|
    requires !At(s0, inputs, i).m.active && At(s0, inputs, i + 1).m.active
    ensures || inputs[i].event.LockRequest?
            || inputs[i].event == SetActiveRequest(true)
            || (At(s0, inputs, i + 1).l.inhibitors == map[] && At(s0, inputs, i + 1).l.activationEnabled)
  {
    StepOfRun(s0, inputs, i);
    hide SaverInv, QueuesExplained, At;
  }

  lemma StepOfRun(s0: Saver, inputs: seq<Input>, i: nat)
    requires SaverInv(s0) && i < |inputs|
    ensures Explained(At(s0, inputs, i), inputs[i].event, At(s0, inputs, i + 1))
  {
    hide SaverInv, Explained, Step, At;
    EveryStateOk(s0, inputs, i);
    NextAt(s0, inputs, i);
    StepExplained(At(s0, inputs, i), inputs[i].event, inputs[i].env);
  }

  /** One step neither unlocks an active saver nor lapses with locking enabled. */
  lemma LockingOfRun(s0: Saver, inputs: seq<Input>, i: nat)
    requires SaverInv(s0) && i < |inputs|
    ensures var s, r := At(s0, inputs, i), At(s0, inputs, i + 1);
            && (s.m.active && r.m.active && s.m.lockActive ==> r.m.lockActive)
            && (r.m.timers.lapsed && !s.m.timers.lapsed ==> !r.m.lockEnabled)
  {
    StepOfRun(s0, inputs, i);
    hide At, SaverInv, QueuesExplained;
  }

  /** Once locked, the screen stays locked for as long as the saver stays active. */
  lemma {:induction false} LockNeverReverts(s0: Saver, inputs: seq<Input>, i: nat, j: nat)
    requires SaverInv(s0) && i <= j <= |inputs|
    requires At(s0, inputs, i).m.lockActive
    requires forall k {:trigger At(s0, inputs, k)} :: i <= k <= j ==> At(s0, inputs, k).m.active
    ensures At(s0, inputs, j).m.lockActive
    decreases j
  {
    if i < j {
      hide At, SaverInv;
      LockNeverReverts(s0, inputs, i, j - 1);
      LockingOfRun(s0, inputs, j - 1);
    }
  }

  // ----- Where deactivations come from -----------------------------------------

  /** The running dialog of window `w` printed RESPONSE=OK before callback `i`. */
  ghost predicate AnsweredOk(s0: Saver, inputs: seq<Input>, i: nat, w: WindowId)
    requires i <= |inputs|
  {
    exists j :: 0 <= j < i && SaysOk(At(s0, inputs, j).m, inputs[j].event, w)
  }

  /** Every remembered answer was printed earlier in the run. */
  lemma {:induction false} AnswersTrace(s0: Saver, inputs: seq<Input>, i: nat, w: WindowId)
    requires NoNewAnswers(map[], s0.m.win) && i <= |inputs|
    requires w in At(s0, inputs, i).m.win && At(s0, inputs, i).m.win[w].okResponse
    ensures AnsweredOk(s0, inputs, i, w)
    decreases i
  {
    if i == 0 {
      assert false;
    } else {
      hide Step, At, SaysOk;
      NextAt(s0, inputs, i - 1);
      StepAnswers(At(s0, inputs, i - 1), inputs[i - 1].event, inputs[i - 1].env);
      if !SaysOk(At(s0, inputs, i - 1).m, inputs[i - 1].event, w) {
        AnswersTrace(s0, inputs, i - 1, w);
      }
    }
  }

  /** Callback `j` queued `t`, and rightly so: the window's dialog had printed
      RESPONSE=OK, or the screen was showing but not locked. */
  ghost predicate RightlyQueued(s0: Saver, inputs: seq<Input>, j: nat, t: Token)
    requires j < |inputs|
  {
    && At(s0, inputs, j + 1).m.out.windowIdles == At(s0, inputs, j).m.out.windowIdles + [t]
    && match t.cause
       case DialogSaidOk => AnsweredOk(s0, inputs, j + 1, t.window)
       case WindowNotLocked => At(s0, inputs, j).m.active && !At(s0, inputs, j).m.lockActive
  }

  ghost predicate HasOrigin(s0: Saver, inputs: seq<Input>, i: nat, t: Token)
    requires i <= |inputs|
  {
    exists j :: 0 <= j < i && RightlyQueued(s0, inputs, j, t)
  }

  predicate Pending(m: Manager, t: Token) {
    t in m.out.windowIdles || t in m.out.managerIdles
  }

  lemma QueuedRightly(s0: Saver, inputs: seq<Input>, i: nat)
    requires SaverInv(s0) && NoNewAnswers(map[], s0.m.win) && i < |inputs|
    requires QueuedOne(At(s0, inputs, i).m, inputs[i].event, At(s0, inputs, i + 1).m.out.windowIdles)
    ensures var q := At(s0, inputs, i + 1).m.out.windowIdles;
            RightlyQueued(s0, inputs, i, q[|q| - 1])
  {
    hide At, SaverInv, SaysOk;
    var q := At(s0, inputs, i + 1).m.out.windowIdles;
    var t := q[|q| - 1];
    assert q == q[..|q| - 1] + [t];
    if t.cause.DialogSaidOk? {
      if !SaysOk(At(s0, inputs, i).m, inputs[i].event, t.window) {
        AnswersTrace(s0, inputs, i, t.window);
      }
      assert AnsweredOk(s0, inputs, i + 1, t.window);
    }
  }

  lemma OriginStays(s0: Saver, inputs: seq<Input>, i: nat, t: Token)
    requires i < |inputs| && HasOrigin(s0, inputs, i, t)
    ensures HasOrigin(s0, inputs, i + 1, t)
  {
  }

  /** What is queued after a step was queued before it, or is the one new token. */
  lemma PendingStep(m: Manager, e: Event, r: Manager, t: Token)
    requires QueuesExplained(m, e, r) && Pending(r, t)
    ensures Pending(m, t) || (QueuedOne(m, e, r.out.windowIdles) && t == r.out.windowIdles[|r.out.windowIdles| - 1])
  {
  }

  /** Every queued deactivation was rightly queued at some earlier callback. */
  lemma {:induction false} QueuesTrace(s0: Saver, inputs: seq<Input>, i: nat, t: Token)
    requires SaverInv(s0) && NoNewAnswers(map[], s0.m.win) && i <= |inputs|
    requires s0.m.out.windowIdles == [] && s0.m.out.managerIdles == []
    requires Pending(At(s0, inputs, i).m, t)
    ensures HasOrigin(s0, inputs, i, t)
    decreases i
  {
    if i == 0 {
      assert false;
    } else {
      StepOfRun(s0, inputs, i - 1);
      hide At, SaverInv, QueuesExplained, RightlyQueued, Pending, QueuedOne;
      PendingStep(At(s0, inputs, i - 1).m, inputs[i - 1].event, At(s0, inputs, i).m, t);
      if Pending(At(s0, inputs, i - 1).m, t) {
        QueuesTrace(s0, inputs, i - 1, t);
        OriginStays(s0, inputs, i - 1, t);
      } else {
        QueuedRightly(s0, inputs, i - 1);
      }
    }
  }

  /** Deactivation provenance: a saver that starts at rest only ever deactivates on an
      explicit request, or by a manager idle whose own token was queued after the window's
      running dialog had printed RESPONSE=OK, or while the screen was not locked. */
  lemma DeactivationTrace(monitors: seq<MonitorId>, prefs: Prefs, now: nat, inputs: seq<Input>, n: nat)
    requires Distinct(monitors) && monitors != [] && now >= 1000 && n < |inputs|
    requires var s0 := Start(monitors, prefs, now); At(s0, inputs, n).m.active && !At(s0, inputs, n + 1).m.active
    ensures var s0, e := Start(monitors, prefs, now), inputs[n].event;
            || e == SetActiveRequest(false)
            || (&& e.ManagerDeactivatedIdle? && e.index < |At(s0, inputs, n).m.out.managerIdles|
                && HasOrigin(s0, inputs, n, At(s0, inputs, n).m.out.managerIdles[e.index]))
  {
    var s0 := Start(monitors, prefs, now);
    StartOk(monitors, prefs, now);
    NoWindowsAtRest(s0);
    hide Start;
    StepOfRun(s0, inputs, n);
    hide At, SaverInv, QueuesExplained, HasOrigin;
    if inputs[n].event != SetActiveRequest(false) {
      QueuesTrace(s0, inputs, n, At(s0, inputs, n).m.out.managerIdles[inputs[n].event.index]);
    }
  }

  lemma NoWindowsAtRest(s: Saver)
    requires SaverInv(s) && !s.m.active
    ensures s.m.win == map[] && NoNewAnswers(map[], s.m.win)
  {
    assert Shape(s.m);
  }
}
