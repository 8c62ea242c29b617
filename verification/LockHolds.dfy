/** When a locked screen stays locked: the exact condition, in every reachable state. */
module LockHolds {
  import opened JobTable
  import opened ManagerModel
  import opened ManagerProofs
  import opened ScreensaverModel
  import opened ScreensaverProofs
  import opened ScreensaverRuns
  import opened Answers
  import opened CallbackAnswers
  import opened Provenance

  // ----- Remembered answers and queued tokens ----------------------------------

  /** A window remembers an OK only while the deactivation that it caused is pending. */
  predicate AnswersPending(m: Manager) {
    forall w :: w in m.win && m.win[w].okResponse ==> Pending(m, Token(w, DialogSaidOk))
  }

  /** Queued tokens name windows whose ids have been handed out. */
  predicate TokensIssued(m: Manager) {
    forall t :: t in m.out.windowIdles ==> t.window < m.nextWindow
  }

  ghost predicate RunInv(s: Saver) {
    SaverInv(s) && AnswersPending(s.m) && TokensIssued(s.m)
  }

  /** A dialog that says OK queues the deactivation of its window. */
  lemma OkQueues(s: Saver, w: WindowId, env0: Env)
    requires SaverInv(s) && SaysOk(s.m, DialogOutput(w, ResponseOk), w)
    ensures Pending(Step(s, DialogOutput(w, ResponseOk), env0).m, Token(w, DialogSaidOk))
  {
    hide Inv, ListenerOk, LockCommandWatch, SameShape;
    LockCommandWatchKeeps(s.m, w, ResponseOk, env0.(now := s.now), s.now);
  }

  lemma PendingStays(m: Manager, e: Event, r: Manager, t: Token)
    requires Pending(m, t) && QueuesExplained(m, e, r) && r.active && t.window in m.win
    ensures Pending(r, t)
  {
    if e.WindowDeactivatedIdle? && e.index < |m.out.windowIdles| && m.out.windowIdles[e.index] != t {
      Removed(m.out.windowIdles, e.index, t);
    }
    if t in m.out.windowIdles && QueuedOne(m, e, r.out.windowIdles) {
      assert t in r.out.windowIdles[..|r.out.windowIdles| - 1];
    }
  }

  lemma Removed(q: seq<Token>, i: nat, t: Token)
    requires i < |q| && q[i] != t
    ensures t in q ==> t in RemoveAt(q, i)
  {
    if t in q {
      var k :| 0 <= k < |q| && q[k] == t;
      assert RemoveAt(q, i)[if k < i then k else k - 1] == t;
    }
  }

  lemma AnswersStep(s: Saver, e: Event, r: Saver)
    requires SaverInv(r) && QueuesExplained(s.m, e, r.m) && Remembers(s.m, e, r.m) && AnswersPending(s.m)
    requires forall w :: SaysOk(s.m, e, w) ==> Pending(r.m, Token(w, DialogSaidOk))
    ensures AnswersPending(r.m)
  {
    if r.m.active {
      hide SaverInv, QueuesExplained, Pending, SaysOk;
      forall w | w in r.m.win && r.m.win[w].okResponse
        ensures Pending(r.m, Token(w, DialogSaidOk))
      {
        if !SaysOk(s.m, e, w) {
          PendingStays(s.m, e, r.m, Token(w, DialogSaidOk));
        }
      }
    } else {
      NoWindowsAtRest(r);
    }
  }

  lemma IdsBelowNext(s: Saver)
    requires SaverInv(s)
    ensures forall w :: w in s.m.win ==> w < s.m.nextWindow
  {
    assert WindowsOk(s.m);
  }

  lemma TokensStep(m: Manager, r: Manager)
    requires TokensIssued(m) && Issued(m, r) && forall w :: w in m.win ==> w < m.nextWindow
    ensures TokensIssued(r)
  {
  }

  lemma RunInvStep(s: Saver, e: Event, env: Env)
    requires RunInv(s)
    ensures RunInv(Step(s, e, env))
  {
    var r := Step(s, e, env);
    StepExplained(s, e, env);
    StepAnswers(s, e, env);
    IdsBelowNext(s);
    forall w | SaysOk(s.m, e, w)
      ensures Pending(r.m, Token(w, DialogSaidOk))
    {
      OkQueues(s, w, env);
    }
    hide SaverInv, Step, QueuesExplained, Remembers, AnswersPending, Issued, TokensIssued, ActivityExplained, SaysOk, Pending;
    AnswersStep(s, e, r);
    TokensStep(s.m, r.m);
  }

  lemma {:induction false} EveryRunOk(s0: Saver, inputs: seq<Input>, i: nat)
    requires RunInv(s0) && i <= |inputs|
    ensures RunInv(At(s0, inputs, i))
    decreases i
  {
    hide RunInv, Step, At;
    FirstAt(s0, inputs);
    if i > 0 {
      EveryRunOk(s0, inputs, i - 1);
      NextAt(s0, inputs, i - 1);
      RunInvStep(At(s0, inputs, i - 1), inputs[i - 1].event, inputs[i - 1].env);
    }
  }

  lemma ReachableOk(monitors: seq<MonitorId>, prefs: Prefs, now: nat, inputs: seq<Input>, i: nat)
    requires Distinct(monitors) && monitors != [] && now >= 1000 && i <= |inputs|
    ensures RunInv(At(Start(monitors, prefs, now), inputs, i))
  {
    var s0 := Start(monitors, prefs, now);
    StartOk(monitors, prefs, now);
    NoWindowsAtRest(s0);
    assert RunInv(s0) by { hide SaverInv, Start; }
    hide RunInv, Start, At;
    EveryRunOk(s0, inputs, i);
  }

  /** In every state of every run, a window remembers an OK only while its own deactivation
      is still queued: a later dialog can only repeat what is already under way. */
  lemma RememberedOnlyWhilePending(monitors: seq<MonitorId>, prefs: Prefs, now: nat, inputs: seq<Input>, i: nat, w: WindowId)
    requires Distinct(monitors) && monitors != [] && now >= 1000 && i <= |inputs|
    requires var m := At(Start(monitors, prefs, now), inputs, i).m; w in m.win && m.win[w].okResponse
    ensures var m := At(Start(monitors, prefs, now), inputs, i).m;
            Token(w, DialogSaidOk) in m.out.windowIdles || Token(w, DialogSaidOk) in m.out.managerIdles
  {
    ReachableOk(monitors, prefs, now, inputs, i);
    hide At, Start, SaverInv, TokensIssued;
  }

  // ----- A locked screen stays locked -------------------------------------------

  predicate Releases(e: Event) {
    e == SetActiveRequest(false) || (e.DialogOutput? && e.line == ResponseOk)
  }

  /** No deactivation is under way: the manager has none queued, and what windows queued
      belongs to windows that are gone. */
  predicate NothingUnderWay(m: Manager) {
    m.out.managerIdles == [] && forall t :: t in m.out.windowIdles ==> t.window !in m.win
  }

  predicate LockedFast(s: Saver) {
    s.m.active && s.m.lockActive && NothingUnderWay(s.m)
  }

  /** While locked fast, only a release makes a window queue a deactivation. */
  lemma NothingQueued(m: Manager, e: Event, q: seq<Token>)
    requires m.active && m.lockActive && NothingUnderWay(m) && AnswersPending(m) && !Releases(e)
    ensures !QueuedOne(m, e, q)
  {
  }

  lemma GoneStaysGone(m: Manager, r: Manager, w: WindowId)
    requires Issued(m, r) && w < m.nextWindow && w !in m.win
    ensures w !in r.win
  {
  }

  lemma NothingNewUnderWay(m: Manager, e: Event, r: Manager)
    requires m.active && m.lockActive && NothingUnderWay(m) && AnswersPending(m) && TokensIssued(m) && !Releases(e)
    requires QueuesExplained(m, e, r) && Issued(m, r)
    ensures NothingUnderWay(r)
  {
    NothingQueued(m, e, r.out.windowIdles);
    forall t | t in r.out.windowIdles
      ensures t in m.out.windowIdles
    {
    }
    if e.WindowDeactivatedIdle? && e.index < |m.out.windowIdles| {
      assert m.out.windowIdles[e.index] in m.out.windowIdles;
    }
    hide QueuesExplained, AnswersPending, Issued;
    forall t | t in r.out.windowIdles
      ensures t.window !in r.win
    {
      GoneStaysGone(m, r, t.window);
    }
  }

  lemma LockedFastStep(s: Saver, e: Event, r: Saver)
    requires RunInv(s) && LockedFast(s) && !Releases(e)
    requires ActivityExplained(s, e, r) && QueuesExplained(s.m, e, r.m) && Issued(s.m, r.m)
    ensures LockedFast(r)
  {
    hide SaverInv;
    NothingNewUnderWay(s.m, e, r.m);
    hide QueuesExplained, Issued, TokensIssued, AnswersPending;
  }

  /** Without RESPONSE=OK and without an explicit request, no sequence of timers, hot-plugs,
      clicks, preference changes, inhibitors or dying dialogs unlocks the screen. */
  lemma {:induction false} LockedStaysLocked(s0: Saver, inputs: seq<Input>, i: nat)
    requires i <= |inputs| && NoRelease(inputs)
    requires RunInv(s0) && LockedFast(s0)
    ensures LockedFast(At(s0, inputs, i))
    decreases i
  {
    hide LockedFast, RunInv, Step, At, Releases;
    FirstAt(s0, inputs);
    if i > 0 {
      var s, e := At(s0, inputs, i - 1), inputs[i - 1].event;
      LockedStaysLocked(s0, inputs, i - 1);
      EveryRunOk(s0, inputs, i - 1);
      LockedOneStep(s, e, inputs[i - 1].env);
      NextAt(s0, inputs, i - 1);
    }
  }

  lemma LockedOneStep(s: Saver, e: Event, env: Env)
    requires RunInv(s) && LockedFast(s) && !Releases(e)
    ensures LockedFast(Step(s, e, env))
  {
    StepExplained(s, e, env);
    StepAnswers(s, e, env);
    hide SaverInv, LockedFast, Step, ActivityExplained, QueuesExplained, Issued, Remembers, Releases, TokensIssued, AnswersPending;
    LockedFastStep(s, e, Step(s, e, env));
  }

  // ----- The exact condition ----------------------------------------------------

  ghost predicate NoRelease(inputs: seq<Input>) {
    forall j :: 0 <= j < |inputs| ==> !Releases(inputs[j].event)
  }

  /** No run without a release ends inactive or unlocked. */
  ghost predicate HoldsInEveryRun(s: Saver) {
    forall inputs {:trigger Run(s, inputs)} :: NoRelease(inputs) ==> Run(s, inputs).m.active && Run(s, inputs).m.lockActive
  }

  lemma ListenerTurnsOff(s: Saver, env: Env)
    requires s.l.active && s.m.active
    ensures !ListenerSetActive(s, false, env).s.m.active
  {
    assert SetActive(s.m, false, env).ok && !SetActive(s.m, false, env).m.active by {
      hide StopJobs, DestroyWindows;
    }
    hide SetActive;
  }

  /** A token that is already on its way unlocks a screen that was locked meanwhile. */
  lemma PendingTokenUnlocks(s: Saver, env: Env)
    requires SaverInv(s) && s.m.active && s.m.out.managerIdles != []
    ensures !Step(s, ManagerDeactivatedIdle(0), env).m.active
  {
    hide ListenerSetActive, Inv, ListenerOk;
    ListenerTurnsOff(s.(m := s.m.(out := s.m.out.(managerIdles := RemoveAt(s.m.out.managerIdles, 0)))),
                     env.(now := s.now));
  }

  lemma TokenMovesOn(s: Saver, k: nat, env: Env)
    requires k < |s.m.out.windowIdles| && s.m.out.windowIdles[k].window in s.m.win
    ensures var r := Step(s, WindowDeactivatedIdle(k), env);
            r.m.active == s.m.active && r.m.out.managerIdles != []
  {
  }

  lemma RunOne(s: Saver, a: Input)
    ensures Run(s, [a]) == Step(s, a.event, a.env)
  {
    hide Step;
    assert [a][..0] == [];
  }

  lemma RunTwo(s: Saver, a: Input, b: Input)
    ensures Run(s, [a, b]) == Step(Step(s, a.event, a.env), b.event, b.env)
  {
    hide Step;
    assert [a, b][..1] == [a];
    RunOne(s, a);
  }

  lemma ManagerTokenBreaksLock(s: Saver, env: Env)
    requires SaverInv(s) && s.m.active && s.m.out.managerIdles != []
    ensures !HoldsInEveryRun(s)
  {
    var deliver := Input(ManagerDeactivatedIdle(0), env);
    hide Step, SaverInv, Run;
    PendingTokenUnlocks(s, env);
    RunOne(s, deliver);
    assert NoRelease([deliver]);
  }

  lemma TwoIdlesUnlock(s: Saver, k: nat, env: Env)
    requires s.m.active && k < |s.m.out.windowIdles| && s.m.out.windowIdles[k].window in s.m.win
    requires SaverInv(s)
    ensures !Run(s, [Input(WindowDeactivatedIdle(k), env), Input(ManagerDeactivatedIdle(0), env)]).m.active
  {
    hide Step, SaverInv, Run, ActivityExplained, QueuesExplained;
    var s1 := Step(s, WindowDeactivatedIdle(k), env);
    TokenMovesOn(s, k, env);
    StepExplained(s, WindowDeactivatedIdle(k), env);
    PendingTokenUnlocks(s1, env);
    RunTwo(s, Input(WindowDeactivatedIdle(k), env), Input(ManagerDeactivatedIdle(0), env));
  }

  lemma IdlesDoNotRelease(k: nat, env: Env)
    ensures NoRelease([Input(WindowDeactivatedIdle(k), env), Input(ManagerDeactivatedIdle(0), env)])
  {
  }

  lemma WindowTokenBreaksLock(s: Saver, k: nat, env: Env)
    requires s.m.active && k < |s.m.out.windowIdles| && s.m.out.windowIdles[k].window in s.m.win
    requires SaverInv(s)
    ensures !HoldsInEveryRun(s)
  {
    hide SaverInv, Run, NoRelease;
    TwoIdlesUnlock(s, k, env);
    IdlesDoNotRelease(k, env);
  }

  lemma QueueBreaksLock(s: Saver, env: Env)
    requires SaverInv(s) && s.m.active && !NothingUnderWay(s.m)
    ensures !HoldsInEveryRun(s)
  {
    hide SaverInv, HoldsInEveryRun;
    if s.m.out.managerIdles != [] {
      ManagerTokenBreaksLock(s, env);
    } else {
      var k :| 0 <= k < |s.m.out.windowIdles| && s.m.out.windowIdles[k].window in s.m.win;
      WindowTokenBreaksLock(s, k, env);
    }
  }

  lemma LockHoldsExactly(s: Saver, env: Env)
    requires RunInv(s) && s.m.active && s.m.lockActive
    ensures HoldsInEveryRun(s) <==> NothingUnderWay(s.m)
  {
    hide AnswersPending, TokensIssued, NothingUnderWay, SaverInv;
    if NothingUnderWay(s.m) {
      forall inputs | NoRelease(inputs)
        ensures Run(s, inputs).m.active && Run(s, inputs).m.lockActive
      {
        LockedStaysLocked(s, inputs, |inputs|);
        assert inputs[..|inputs|] == inputs;
      }
    } else {
      QueueBreaksLock(s, env);
    }
  }

  /** In every reachable locked state, the lock holds through every run without a release if
      and only if no deactivation is under way: none is queued at the manager, and none at
      a window that still exists. */
  lemma LockHoldsIff(monitors: seq<MonitorId>, prefs: Prefs, now: nat, inputs: seq<Input>, i: nat, env: Env)
    requires Distinct(monitors) && monitors != [] && now >= 1000 && i <= |inputs|
    requires var m := At(Start(monitors, prefs, now), inputs, i).m; m.active && m.lockActive
    ensures var s := At(Start(monitors, prefs, now), inputs, i);
            HoldsInEveryRun(s) <==>
              s.m.out.managerIdles == [] && forall t :: t in s.m.out.windowIdles ==> t.window !in s.m.win
  {
    ReachableOk(monitors, prefs, now, inputs, i);
    LockHoldsExactly(At(Start(monitors, prefs, now), inputs, i), env);
    hide At, Start, RunInv, HoldsInEveryRun;
  }

  // ----- An input on which the lock does not hold --------------------------------

  lemma UnlockedRequestQueues(s: Saver, env: Env)
    requires SaverInv(s) && s.m.active && !s.m.lockActive && !s.m.dialogUp
    ensures var r := RequestUnlock(s.m, env);
            exists w :: w in s.m.win && r == QueueDeactivation(s.m, w, WindowNotLocked)
  {
    var w := WindowAtPointer(s.m, env.pointer, |s.m.windows|);
    PointerWindowListed(s.m, env.pointer, |s.m.windows|);
    assert w in s.m.win by { assert WindowsOk(s.m); }
    assert s.m.win[w].visible && !s.m.win[w].lockEnabled by { assert Shape(s.m); }
    assert !s.m.win[w].lockWatch by {
      assert DialogOk(s.m.win, s.m.dialogUp);
      assert s.m.win[w].dialogUp ==> SomeDialog(s.m.win);
    }
    assert RequestUnlock(s.m, env) == QueueDeactivation(s.m, w, WindowNotLocked);
  }

  lemma LockAfterRequest(s: Saver, w: WindowId, env: Env)
    requires s.m.active && !s.lockDisabled && w in s.m.win && Token(w, WindowNotLocked) in s.m.out.windowIdles
    ensures var r := Step(s, LockRequest, env);
            && r.m.active && r.m.lockActive
            && w in r.m.win && Token(w, WindowNotLocked) in r.m.out.windowIdles
  {
    hide ListenerSetActive;
  }

  lemma ClickQueues(s: Saver, env: Env) returns (w: WindowId)
    requires SaverInv(s) && s.m.active && !s.m.lockActive && !s.m.dialogUp
    ensures w in s.m.win && Step(s, UserActivity, env) == s.(m := QueueDeactivation(s.m, w, WindowNotLocked))
  {
    hide SaverInv, RequestUnlock;
    UnlockedRequestQueues(s, env.(now := s.now));
    w :| w in s.m.win && RequestUnlock(s.m, env.(now := s.now)) == QueueDeactivation(s.m, w, WindowNotLocked);
  }

  /** A click on an unlocked screen followed by a lock request leaves a locked screen that
      two deferred callbacks unlock again. */
  lemma LockedTooLate(s: Saver, env: Env)
    requires SaverInv(s) && s.m.active && !s.m.lockActive && !s.m.dialogUp && !s.lockDisabled
    ensures var r := Run(s, [Input(UserActivity, env), Input(LockRequest, env)]);
            r.m.active && r.m.lockActive && !HoldsInEveryRun(r)
  {
    hide SaverInv, HoldsInEveryRun, Step, Run;
    var s1 := Step(s, UserActivity, env);
    var w := ClickQueues(s, env);
    StepExplained(s, UserActivity, env);
    LockAfterRequest(s1, w, env);
    StepExplained(s1, LockRequest, env);
    RunTwo(s, Input(UserActivity, env), Input(LockRequest, env));
    QueueBreaksLock(Step(s1, LockRequest, env), env);
  }

  /** And a run from the start that gets there: activate, click, lock. */
  lemma LockedTooLateFromStart(monitors: seq<MonitorId>, prefs: Prefs, now: nat, env: Env)
    requires Distinct(monitors) && monitors != [] && now >= 1000 && env.grab && !prefs.lockDisabled
    ensures var s := Step(Start(monitors, prefs, now), SetActiveRequest(true), env);
            var r := Run(s, [Input(UserActivity, env), Input(LockRequest, env)]);
            r.m.active && r.m.lockActive && !HoldsInEveryRun(r)
  {
    var s0 := Start(monitors, prefs, now);
    StartOk(monitors, prefs, now);
    assert !s0.lockDisabled;
    assert !s0.l.active && !s0.m.lockActive by { assert Shape(s0.m); }
    hide Start, ListenerSetActive, SaverInv, HoldsInEveryRun;
    TurnOn(s0, env.(now := s0.now));
    LockedTooLate(Step(s0, SetActiveRequest(true), env), env);
  }
}
