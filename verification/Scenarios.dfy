/** Consequences of the responses: when exactly an idle session is covered and locked, where
    the dialog comes up, and what a request and its opposite leave behind. */
module Scenarios {
  import opened Options
  import opened Jobs
  import opened JobTable
  import opened ManagerModel
  import opened ManagerProofs
  import opened ManagerEffects
  import opened JobEffects
  import opened ScreensaverModel
  import opened ScreensaverProofs
  import opened ScreensaverRuns
  import opened ScreensaverEffects
  import opened Responses

  /** In every run, every callback does what its event asks for. */
  lemma EveryCallbackResponds(s0: Saver, inputs: seq<Input>, i: nat)
    requires SaverInv(s0) && i < |inputs|
    ensures Responds(At(s0, inputs, i), inputs[i].event, At(s0, inputs, i + 1), inputs[i].env.(now := At(s0, inputs, i).now))
  {
    hide SaverInv, Step, Responds;
    EveryStateOk(s0, inputs, i);
    NextAt(s0, inputs, i);
    StepResponds(At(s0, inputs, i), inputs[i].event, inputs[i].env);
  }

  // ----- When exactly the saver is activated -------------------------------------------

  lemma IdleResponds(s: Saver, env: Env)
    requires SaverInv(s)
    ensures var r := Step(s, IdleTimer, env);
            SaverInv(r) && IdleTimerTaken(s, r, env.(now := s.now))
  {
    hide SaverInv, Step, IdleTimerTaken, ActivityExplained, QueuesExplained;
    StepResponds(s, IdleTimer, env);
    StepExplained(s, IdleTimer, env);
  }

  lemma ActiveIsIdle(s: Saver)
    requires SaverInv(s)
    ensures s.l.active == s.m.active && (s.l.active ==> s.l.sessionIdle)
  {
  }

  /** The idle timer activates exactly a session that was not idle, with activation enabled,
      nothing inhibiting it, and a grab that succeeds. */
  lemma IdleActivates(s: Saver, env: Env)
    requires SaverInv(s)
    ensures Step(s, IdleTimer, env).m.active <==>
            || s.m.active
            || (s.w.idleTimer && !s.w.idle && !s.l.sessionIdle
                && s.l.activationEnabled && s.l.inhibitors == map[] && env.grab)
  {
    hide SaverInv, Step;
    ActiveIsIdle(s);
    IdleResponds(s, env);
  }

  /** Removing the last inhibitor activates exactly an idle session. */
  lemma UnInhibitActivates(s: Saver, cookie: nat, failed: set<nat>, env: Env)
    requires SaverInv(s)
    ensures Step(s, UnInhibit(cookie, failed), env).m.active <==>
            || s.m.active
            || (cookie in s.l.inhibitors && s.l.inhibitors - {cookie} == map[]
                && s.l.sessionIdle && s.l.activationEnabled && env.grab)
  {
    hide SaverInv, Step, Released, Gentle, WokenWithout;
    StepResponds(s, UnInhibit(cookie, failed), env);
  }

  lemma ConnectionResponds(s: Saver, connection: string, failed: set<nat>, env: Env)
    requires SaverInv(s)
    ensures ConnectionTaken(s, connection, failed, Step(s, ConnectionLost(connection, failed), env), env.(now := s.now))
  {
    hide SaverInv, Step, ConnectionTaken;
    StepResponds(s, ConnectionLost(connection, failed), env);
  }

  /** So does losing the connection that held the last inhibitors. */
  lemma ConnectionLossActivates(s: Saver, connection: string, failed: set<nat>, env: Env)
    requires SaverInv(s)
    ensures var theirs := set c | c in s.l.inhibitors && s.l.inhibitors[c].connection == connection;
            Step(s, ConnectionLost(connection, failed), env).m.active <==>
            || s.m.active
            || (theirs != {} && s.l.inhibitors - theirs == map[] && s.l.sessionIdle && s.l.activationEnabled && env.grab)
  {
    var r := Step(s, ConnectionLost(connection, failed), env);
    var throttles := set c | c in s.l.throttlers && s.l.throttlers[c].connection == connection;
    var theirs := set c | c in s.l.inhibitors && s.l.inhibitors[c].connection == connection;
    hide SaverInv, Step, Released, Gentle, WokenWithout, AllStarted, NoProcess;
    ConnectionResponds(s, connection, failed, env);
    var s1 :| ThrottlersAre(s, s.l.throttlers - throttles, s1, env.(now := s.now))
              && InhibitorsTaken(s1, theirs, failed, r, env.(now := s.now));
  }

  // ----- Where the dialog comes up -----------------------------------------------------

  lemma ActivityAsks(s: Saver, env: Env)
    requires SaverInv(s)
    ensures var r := Step(s, UserActivity, env);
            r == s.(m := r.m) && UnlockTaken(s.m, r.m, env.pointer)
  {
    hide SaverInv, Step, UnlockTaken;
    StepResponds(s, UserActivity, env);
  }

  lemma AskedThere(s: Saver, w: WindowId, env: Env)
    requires w in s.m.win && s.m.win[w].monitor == env.pointer && s.m.lockActive && !s.m.dialogUp
    requires SaverInv(s)
    ensures var r := Step(s, UserActivity, env);
            r == s.(m := r.m) && UnlockAsked(s.m, r.m, w)
  {
    hide SaverInv, Step, AtPointer, UnlockAsked;
    var r := Step(s, UserActivity, env);
    PointerWindowIs(s, w);
    ActivityAsks(s, env);
    var x :| x in s.m.win && AtPointer(s.m, env.pointer, |s.m.windows|, x) && UnlockAsked(s.m, r.m, x);
    assert x == w;
  }

  /** A locked saver asks on the window of the pointer's monitor, and on no other. */
  lemma AskedOnPointersMonitor(s: Saver, w: WindowId, env: Env)
    requires w in s.m.win && s.m.win[w].monitor == env.pointer && s.m.lockActive && !s.m.dialogUp
    requires SaverInv(s)
    ensures var r := Step(s, UserActivity, env);
            && r == s.(m := r.m) && UnlockAsked(s.m, r.m, w)
            && r.m.dialogUp && r.m.win.Keys == s.m.win.Keys && forall x :: x in r.m.win ==> (r.m.win[x].dialogUp <==> x == w)
  {
    hide SaverInv, Step, AllSuspended;
    AskedThere(s, w, env);
  }

  /** With one window per monitor, only one can be under the mouse. */
  lemma PointerWindowIs(s: Saver, w: WindowId)
    requires w in s.m.win
    requires SaverInv(s)
    ensures s.m.active && s.m.windows != []
    ensures forall x :: AtPointer(s.m, s.m.win[w].monitor, |s.m.windows|, x) ==> x == w
  {
    var m := s.m;
    assert WindowsOk(m) && m.active && WindowPerMonitor(m) by { assert Base(m) && Shape(m) && MonitorsOk(m); }
    assert w in m.windows;
  }

  // ----- A request and its opposite ----------------------------------------------------

  /** Inhibiting and taking it back restores the tables and the session manager's. */
  lemma InhibitThenUnInhibit(s: Saver, connection: string, cookie: nat, answer: nat, failed: set<nat>, env: Env)
    requires SaverInv(s) && FreshCookie(s.l.inhibitors, cookie)
    requires answer !in s.l.session && answer !in failed
    ensures var r := Step(Step(s, Inhibit(connection, cookie, answer), env), UnInhibit(cookie, failed), env);
            && r.l.inhibitors == s.l.inhibitors && r.l.throttlers == s.l.throttlers
            && r.l.session == s.l.session && r.l.leaked == s.l.leaked
  {
    var s1 := Step(s, Inhibit(connection, cookie, answer), env);
    var r := Step(s1, UnInhibit(cookie, failed), env);
    hide SaverInv, Step, InhibitTaken, UnInhibitTaken;
    InhibitResponds(s, connection, cookie, answer, env);
    UnInhibitResponds(s1, cookie, failed, env);
    InhibitMeans(s, connection, cookie, answer, s1);
    UnInhibitMeans(s1, cookie, failed, r, env.(now := s1.now));
    TakenBack(s.l, s1.l, r.l, Entry(cookie, connection, answer), failed);
  }

  lemma InhibitResponds(s: Saver, connection: string, cookie: nat, answer: nat, env: Env)
    requires SaverInv(s)
    ensures var r := Step(s, Inhibit(connection, cookie, answer), env);
            SaverInv(r) && InhibitTaken(s, connection, cookie, answer, r)
  {
    hide SaverInv, Step, InhibitTaken, ActivityExplained, QueuesExplained;
    StepResponds(s, Inhibit(connection, cookie, answer), env);
    StepExplained(s, Inhibit(connection, cookie, answer), env);
  }

  lemma UnInhibitResponds(s: Saver, cookie: nat, failed: set<nat>, env: Env)
    requires SaverInv(s)
    ensures UnInhibitTaken(s, cookie, failed, Step(s, UnInhibit(cookie, failed), env), env.(now := s.now))
  {
    hide SaverInv, Step, UnInhibitTaken;
    StepResponds(s, UnInhibit(cookie, failed), env);
  }

  lemma InhibitMeans(s: Saver, connection: string, cookie: nat, answer: nat, r: Saver)
    requires InhibitTaken(s, connection, cookie, answer, r) && FreshCookie(s.l.inhibitors, cookie) && answer !in s.l.session
    ensures r.l == s.l.(inhibitors := s.l.inhibitors[cookie := Entry(cookie, connection, answer)],
                        session := s.l.session + (if answer == 0 then {} else {answer}))
  {
  }

  lemma UnInhibitMeans(s: Saver, cookie: nat, failed: set<nat>, r: Saver, env: Env)
    requires UnInhibitTaken(s, cookie, failed, r, env) && cookie in s.l.inhibitors
    ensures Released(s.l, r.l, {cookie}, failed)
  {
    hide SaverInv, Gentle, WokenWithout;
  }

  lemma TakenBack(l: Listener, l1: Listener, r: Listener, e: Entry, failed: set<nat>)
    requires e.cookie !in l.inhibitors && e.foreign !in l.session && e.foreign !in failed
    requires l1 == l.(inhibitors := l.inhibitors[e.cookie := e], session := l.session + (if e.foreign == 0 then {} else {e.foreign}))
    requires Released(l1, r, {e.cookie}, failed)
    ensures r.inhibitors == l.inhibitors && r.throttlers == l.throttlers && r.session == l.session && r.leaked == l.leaked
  {
    assert l1.inhibitors - {e.cookie} == l.inhibitors;
    assert forall f :: HeldBy(l1.inhibitors, {e.cookie}, f) <==> f != 0 && f == e.foreign;
    assert forall f :: f in r.session <==> f in l.session;
    assert forall f :: f in r.leaked <==> f in l.leaked;
  }

  /** The savers as they were, running if they have a process. */
  predicate SaversGoOn(m: Manager, r: Manager) {
    forall x :: x in m.table.jobs && m.table.jobs[x].pid > 0 ==>
      x in r.table.jobs && r.table.jobs[x] == m.table.jobs[x].(status := Running)
  }

  lemma Cancelled(m: Manager, m1: Manager, m2: Manager, r: Manager, w: WindowId, env: Env)
    requires m.lockActive && UnlockAsked(m, m1, w) && PopupResponse(m1, w, true, m2)
    requires LineTaken(m2, r, w, ResponseCancel, env)
    ensures !r.dialogUp && r.out.windowIdles == m.out.windowIdles
    ensures r.out.signals == m.out.signals + [RequestBegin, RequestEnd]
  {
    hide WindowsFreed, AllResumed, AllSuspended;
    assert m.out.signals + [RequestBegin] + [RequestEnd] == m.out.signals + [RequestBegin, RequestEnd];
  }

  lemma CancelledSavers(m: Manager, m1: Manager, m2: Manager, r: Manager, w: WindowId, env: Env)
    requires m.lockActive && !m.throttled && UnlockAsked(m, m1, w) && PopupResponse(m1, w, true, m2)
    requires LineTaken(m2, r, w, ResponseCancel, env)
    ensures SaversGoOn(m, r)
  {
    hide WindowsFreed, Startable;
  }

  lemma PopupResponds(s: Saver, w: WindowId, spawned: bool, env: Env)
    requires SaverInv(s)
    ensures var r := Step(s, PopupIdle(w, spawned), env);
            SaverInv(r) && PopupResponse(s.m, w, spawned, r.m)
  {
    hide SaverInv, Step, PopupResponse, ActivityExplained, QueuesExplained;
    StepResponds(s, PopupIdle(w, spawned), env);
    StepExplained(s, PopupIdle(w, spawned), env);
  }

  lemma DialogResponds(s: Saver, w: WindowId, line: DialogLine, env: Env)
    requires SaverInv(s)
    ensures LineTaken(s.m, Step(s, DialogOutput(w, line), env).m, w, line, env.(now := s.now))
  {
    hide SaverInv, Step, LineTaken;
    StepResponds(s, DialogOutput(w, line), env);
  }

  /** A dialog that comes up and is cancelled leaves every saver with its process, running. */
  lemma CancelledDialog(s: Saver, w: WindowId, env: Env)
    requires w in s.m.win && s.m.win[w].monitor == env.pointer && s.m.lockActive && !s.m.dialogUp && !s.m.throttled
    requires SaverInv(s)
    ensures var s1 := Step(Step(s, UserActivity, env), PopupIdle(w, true), env);
            var r := Step(s1, DialogOutput(w, ResponseCancel), env).m;
            && !r.dialogUp && r.out.windowIdles == s.m.out.windowIdles && SaversGoOn(s.m, r)
            && r.out.signals == s.m.out.signals + [RequestBegin, RequestEnd]
  {
    var s1 := Step(s, UserActivity, env);
    var s2 := Step(s1, PopupIdle(w, true), env);
    var r := Step(s2, DialogOutput(w, ResponseCancel), env);
    hide SaverInv, Step, UnlockAsked, PopupResponse, LineTaken, SaversGoOn, ActivityExplained, QueuesExplained;
    AskedOnPointersMonitor(s, w, env);
    StepExplained(s, UserActivity, env);
    PopupResponds(s1, w, true, env);
    DialogResponds(s2, w, ResponseCancel, env);
    Cancelled(s.m, s1.m, s2.m, r.m, w, env.(now := s2.now));
    CancelledSavers(s.m, s1.m, s2.m, r.m, w, env.(now := s2.now));
  }

  // ----- From idle to locked -------------------------------------------------------------

  /** A saver at rest with a user present. */
  predicate UserPresent(s: Saver) {
    !s.m.active && !s.w.idle && !s.l.sessionIdle && s.l.inhibitors == map[]
  }

  /** The preferences ask for idle activation and for locking after some minutes. */
  predicate LockAfter(p: Prefs) {
    p.idleActivation && p.lockEnabled && !p.lockDisabled && 0 <= p.lockMinutes <= 480
  }

  lemma Prepared(s: Saver, p: Prefs, env: Env)
    requires SaverInv(s) && UserPresent(s) && LockAfter(p)
    ensures var r := Step(s, PrefsChanged(p), env);
            && SaverInv(r) && UserPresent(r) && r.now == s.now && r.l.activationEnabled
            && r.m.lockEnabled && r.m.timers.lockTimeout == 60000 * p.lockMinutes
  {
    hide SaverInv, Step, ActivityExplained, QueuesExplained;
    StepResponds(s, PrefsChanged(p), env);
    StepExplained(s, PrefsChanged(p), env);
  }

  lemma Noticed(s: Saver, env: Env)
    requires SaverInv(s) && UserPresent(s) && s.l.activationEnabled
    ensures var r := Step(s, Presence(3), env);
            SaverInv(r) && r == s.(w := r.w) && r.w.idleTimer && !r.w.idle
  {
    hide SaverInv, Step, ActivityExplained, QueuesExplained;
    InactiveUnlocked(s);
    StepResponds(s, Presence(3), env);
    StepExplained(s, Presence(3), env);
  }

  lemma CoveredWhenIdle(s: Saver, env: Env)
    requires SaverInv(s) && UserPresent(s) && s.l.activationEnabled && s.w.idleTimer && env.grab
    ensures var r := Step(s, IdleTimer, env);
            && SaverInv(r) && r.m.active && r.now == s.now && !r.m.lockActive && r.m.lockEnabled == s.m.lockEnabled
            && r.m.timers.lockTimer == Some(s.now + s.m.timers.lockTimeout)
  {
    hide SaverInv, Step;
    InactiveUnlocked(s);
    IdleResponds(s, env);
  }

  lemma InactiveUnlocked(s: Saver)
    requires SaverInv(s) && !s.m.active
    ensures !s.m.lockActive && s.w.active
  {
    assert Shape(s.m);
  }

  lemma TimerLocks(s: Saver, ms: nat, env: Env)
    requires SaverInv(s) && s.m.active && !s.m.lockActive && s.m.lockEnabled && s.m.timers.lockTimer.Some?
    ensures var r := Step(Step(s, Advance(ms), env), LockTimer, env);
            && SaverInv(r) && r.m.active
            && (r.m.lockActive <==> s.m.timers.lockTimer.value <= s.now + ms)
  {
    var s1 := Step(s, Advance(ms), env);
    hide SaverInv, Step, ActivityExplained, QueuesExplained;
    StepResponds(s, Advance(ms), env);
    StepExplained(s, Advance(ms), env);
    StepResponds(s1, LockTimer, env);
    StepExplained(s1, LockTimer, env);
  }

  /** Every monitor is covered by a window, locked or not. */
  ghost predicate AllCovered(m: Manager, locked: bool) {
    && m.active
    && (forall mon {:trigger HasWindow(m, mon)} :: mon in m.monitors ==> HasWindow(m, mon))
    && (forall w :: w in m.win ==> m.win[w].visible && m.win[w].lockEnabled == locked)
  }

  lemma ActiveCovers(s: Saver)
    requires SaverInv(s) && s.m.active
    ensures AllCovered(s.m, s.m.lockActive)
  {
    assert Shape(s.m) && MonitorsOk(s.m);
  }

  /** From any state with a user present: when the user goes idle, every monitor is covered,
      and once the minutes of the preferences have passed, and not before, it is locked. */
  lemma IdleThenLocked(s: Saver, p: Prefs, ms: nat, env: Env)
    requires SaverInv(s) && UserPresent(s) && LockAfter(p) && env.grab
    ensures var s1 := Step(Step(Step(s, PrefsChanged(p), env), Presence(3), env), IdleTimer, env);
            var r := Step(Step(s1, Advance(ms), env), LockTimer, env);
            && AllCovered(s1.m, false)
            && AllCovered(r.m, ms >= 60000 * p.lockMinutes)
  {
    hide SaverInv, Step, AllCovered;
    var a := Step(s, PrefsChanged(p), env);
    var b := Step(a, Presence(3), env);
    var c := Step(b, IdleTimer, env);
    Prepared(s, p, env);
    Noticed(a, env);
    CoveredWhenIdle(b, env);
    ActiveCovers(c);
    TimerLocks(c, ms, env);
    ActiveCovers(Step(Step(c, Advance(ms), env), LockTimer, env));
  }
}
