/** What every callback of the screensaver brings about: the response to each event, in
    every state of every run. */
module ScreensaverEffects {
  import opened JobTable
  import opened ManagerModel
  import opened ManagerProofs
  import opened ManagerLifecycle
  import opened JobEffects
  import opened ScreensaverModel
  import opened ScreensaverProofs

  // ----- Activating ----------------------------------------------------------------

  /** The saver has been activated: all components are, at this moment, over new windows
      whose savers are ready to start. */
  ghost predicate Woken(s: Saver, r: Saver, env: Env) {
    && r.l.active && r.l.sessionIdle && r.l.activeStart == s.now / 1000 && SameTables(s.l, r.l)
    && (!s.l.sessionIdle ==> r.l.idleStart == s.now / 1000)
    && Started(s.m, r.m) && ReadyToRun(r.m, s.m.timers, env)
    && !r.w.active && !r.w.idleNotice
    && r.now == s.now && r.lockDisabled == s.lockDisabled
  }

  /** The grab failed: at most the idleness is given up. */
  predicate NotWoken(s: Saver, r: Saver) {
    && r == s.(l := r.l) && SameTables(s.l, r.l)
    && !r.l.active && !r.l.sessionIdle && r.l.idleStart == 0 && r.l.activeStart == s.l.activeStart
  }

  lemma OnIs(s: Saver, env: Env)
    requires !s.l.active
    ensures var r := ListenerSetActive(s, true, env);
            r.ok ==> r.s.m == Activate(s.m, env).m
  {
    hide Activate;
  }

  lemma OnDoes(s: Saver, env: Env, r: Result)
    requires env.now == s.now && r == ListenerSetActive(s, true, env)
    requires Poised(s)
    ensures r.ok == env.grab
    ensures if env.grab then Woken(s, r.s, env) else NotWoken(s, r.s)
  {
    OnIs(s, env);
    ActivateThroughListener(s, env);
    assert Ready(s.m, env.now);
    hide Activate, Inv, ListenerSetActive, Ready, ReadyToRun;
    if env.grab {
      ActivationArms(s.m, env);
    }
  }

  lemma InvPoised(s: Saver)
    requires SaverInv(s) && !s.m.active
    ensures Poised(s)
  {
    hide Inv, LedgerOk, KeysOk;
    InactiveIsReady(s.m, s.now);
  }

  /** SetActive(TRUE) activates exactly if the grab succeeds; SetActive(FALSE) always tears
      everything down. */
  ghost predicate ActiveTaken(s: Saver, active: bool, r: Saver, env: Env) {
    if s.m.active == active then r == s
    else if active then (if env.grab then Woken(s, r, env) else NotWoken(s, r))
    else Slept(s, r)
  }

  predicate Slept(s: Saver, r: Saver) {
    && Torn(s.m, r.m) && SameTables(s.l, r.l)
    && !r.l.active && !r.l.sessionIdle && r.l.activeStart == 0 && r.l.idleStart == 0
    && r.w == s.w.(active := true, idle := false, idleNotice := false)
    && r.now == s.now && r.lockDisabled == s.lockDisabled
  }

  lemma OffDoes(s: Saver, env: Env, r: Result)
    requires env.now == s.now && r == ListenerSetActive(s, false, env)
    requires SaverInv(s) && s.m.active
    ensures r.ok && Slept(s, r.s)
  {
    DeactivateKeeps(s.m, env, s.now);
    hide Inv, Deactivate, Torn, LedgerOk, KeysOk;
  }

  lemma SetActiveDoes(s: Saver, active: bool, env: Env)
    requires SaverInv(s) && env.now == s.now
    ensures ActiveTaken(s, active, ListenerSetActive(s, active, env).s, env)
  {
    assert s.l.active == s.m.active;
    if s.m.active != active {
      hide Inv, Woken, NotWoken, Slept, ListenerSetActive, Poised;
      if active {
        InvPoised(s);
        OnDoes(s, env, ListenerSetActive(s, true, env));
      } else {
        OffDoes(s, env, ListenerSetActive(s, false, env));
      }
    } else {
      hide SaverInv;
    }
  }

  /** Locking: a running saver is locked with all its windows, an inactive one is activated
      locked or, without the grab, stays unlocked; nothing happens when locking is disabled. */
  ghost predicate LockTaken(s: Saver, r: Saver, env: Env) {
    if s.lockDisabled then r == s
    else if s.m.active then
      && r == s.(m := s.m.(lockActive := true, win := r.m.win)) && r.m.win.Keys == s.m.win.Keys
      && (forall w :: w in s.m.win ==> r.m.win[w] == s.m.win[w].(lockEnabled := true))
    else if env.grab then Woken(s.(m := s.m.(lockActive := true)), r, env)
    else NotWoken(s, r)
  }

  lemma LocksRunning(m: Manager, now: nat)
    requires Inv(m, now) && m.active
    ensures var r := SetLockActive(m, true);
            && r == m.(lockActive := true, win := r.win) && r.win.Keys == m.win.Keys
            && (forall w :: w in m.win ==> r.win[w] == m.win[w].(lockEnabled := true))
  {
    if m.lockActive {
      assert Shape(m);
    } else {
      assert Base(m);
      LockedWindows(m, true);
    }
  }

  lemma LockDoes(s: Saver, env: Env)
    requires SaverInv(s) && env.now == s.now && !s.lockDisabled
    ensures LockTaken(s, LockScreen(s, env), env)
  {
    if s.m.active {
      LocksRunning(s.m, s.now);
      hide Inv, SetLockActive, ListenerOk;
    } else {
      LockInactive(s, env);
      hide SaverInv, LockScreen, Woken, NotWoken;
    }
  }

  lemma LockInactive(s: Saver, env: Env)
    requires SaverInv(s) && env.now == s.now && !s.m.active
    ensures var r := LockScreen(s, env);
            if env.grab then Woken(s.(m := s.m.(lockActive := true)), r, env) else NotWoken(s, r)
  {
    assert s.m.win == map[] && !s.m.lockActive by { assert Shape(s.m); }
    LockBeforeActivation(s.m, true);
    LockBeforeActivation(s.m.(lockActive := true), false);
    InactiveIsReady(s.m, s.now);
    ReadyLocked(s.m, s.now);
    var s1 := s.(m := s.m.(lockActive := true));
    hide Inv, SetLockActive, ListenerOk, ListenerSetActive, Ready, Woken;
    OnDoes(s1, env, ListenerSetActive(s1, true, env));
    assert s.m.(lockActive := true).(lockActive := false) == s.m;
  }

  // ----- Idleness --------------------------------------------------------------------

  /** Idleness is only remembered, because activation is disabled. */
  predicate IdleNoted(s: Saver, r: Saver) {
    && r == s.(l := r.l) && SameTables(s.l, r.l)
    && r.l.active == s.l.active && r.l.sessionIdle && r.l.idleStart == s.now / 1000
  }

  lemma BecomeIdleDoes(s: Saver, env: Env, r: Result)
    requires env.now == s.now && r == ListenerSetSessionIdle(s, true, env)
    requires SaverInv(s)
    ensures r.ok == (!s.l.sessionIdle && s.l.inhibitors == map[] && (!s.l.activationEnabled || env.grab))
    ensures !r.ok ==> r.s == s.(l := r.s.l) && SameTables(s.l, r.s.l) && r.s.l.active == s.l.active
                      && r.s.l.sessionIdle == s.l.sessionIdle
    ensures r.ok ==> if s.l.activationEnabled then Woken(s, r.s, env) else IdleNoted(s, r.s)
  {
    assert s.l.active ==> s.l.sessionIdle;
    if s.l.sessionIdle || s.l.inhibitors != map[] || !s.l.activationEnabled {
      hide SaverInv, Woken;
    } else {
      var s1 := s.(l := s.l.(sessionIdle := true));
      InvPoised(s);
      hide SaverInv, ListenerSetActive, Started, ReadyToRun;
      OnDoes(s1, env, ListenerSetActive(s1, true, env));
    }
  }

  /** The idle timer: the session becomes idle exactly if it was not, nothing inhibits it,
      and the activation, if enabled, succeeds; otherwise the timer stays. */
  ghost predicate IdleTimerTaken(s: Saver, r: Saver, env: Env) {
    if !s.w.idleTimer then r == s
    else if s.w.idle || s.l.sessionIdle || s.l.inhibitors != map[] || (s.l.activationEnabled && !env.grab) then
      && r == s.(l := r.l, w := s.w.(idleNotice := false)) && SameTables(s.l, r.l)
      && r.l.active == s.l.active && r.l.sessionIdle == s.l.sessionIdle
    else
      && r.w.idle && !r.w.idleTimer && !r.w.idleNotice
      && (if s.l.activationEnabled then Woken(s, r, env)
          else IdleNoted(s, r.(w := s.w)) && r.w.active == s.w.active)
  }

  lemma IdleTimerDoes(s: Saver, env: Env)
    requires SaverInv(s) && env.now == s.now
    ensures IdleTimerTaken(s, OnIdleTimeout(s, env), env)
  {
    if s.w.idleTimer && !s.w.idle {
      var r := ListenerSetSessionIdle(s, true, env);
      BecomeIdleDoes(s, env, r);
      hide SaverInv, ListenerSetSessionIdle, Started, ReadyToRun;
    } else {
      hide SaverInv;
    }
  }

  /** Status 3 arms the idle timer and gives notice unless that is opposed; any other status
      takes back timer, notice and idleness, if notice had been given. */
  predicate StatusTaken(s: Saver, status: nat, r: Saver) {
    if !s.w.active || (status != 3 && !s.w.idleNotice) then r == s
    else if status == 3 then
      r == s.(w := s.w.(idleTimer := true, idleNotice := s.w.idleNotice || Unopposed(s.l)))
    else
      var back := s.w.idle && s.l.sessionIdle;
      && r == s.(l := r.l, w := s.w.(idleTimer := false, idleNotice := false, idle := s.w.idle && !back))
      && SameTables(s.l, r.l) && r.l.active == s.l.active
      && (if back then !r.l.sessionIdle && r.l.idleStart == 0 else r.l == s.l)
  }

  lemma StatusDoes(s: Saver, status: nat, env: Env)
    requires SaverInv(s)
    ensures StatusTaken(s, status, SetStatus(s, status, env))
  {
    assert s.w.active ==> !s.l.active;
    hide SaverInv, ListenerSetActive;
  }

  // ----- Inhibitors and throttlers -----------------------------------------------------

  /** One more inhibitor, with what the session manager answered, and nothing else. */
  predicate InhibitTaken(s: Saver, connection: string, cookie: nat, answer: nat, r: Saver) {
    if !(0 < cookie < 0x7FFF_FFFF) || cookie in s.l.inhibitors then r == s
    else
      var foreign := if answer in s.l.session then 0 else answer;
      r == s.(l := s.l.(inhibitors := s.l.inhibitors[cookie := Entry(cookie, connection, foreign)],
                        session := s.l.session + (if foreign == 0 then {} else {foreign})))
  }

  lemma InhibitDoes(s: Saver, connection: string, cookie: nat, answer: nat, env: Env)
    ensures InhibitTaken(s, connection, cookie, answer, AddInhibitor(s, connection, cookie, answer, env))
  {
    if FreshCookie(s.l.inhibitors, cookie) {
      assert s.l.session + {} == s.l.session;
      InhibitedStaysPut(s.(l := Inhibited(s.l, connection, cookie, ForeignCookie(s.l, answer))), cookie, env);
      hide CheckActivation;
    }
  }

  /** Without these inhibitors an idle session may have been activated. */
  ghost predicate DropTaken(s: Saver, cookies: set<nat>, failed: set<nat>, r: Saver, env: Env) {
    && Dropped(s, r, cookies, failed, env)
    && (r.m.active != s.m.active ==> WokenWithout(s, r, cookies, failed, env))
  }

  ghost predicate WokenWithout(s: Saver, r: Saver, cookies: set<nat>, failed: set<nat>, env: Env) {
    exists l :: Released(s.l, l, cookies, failed) && Woken(s.(l := l), r, env)
  }

  lemma CheckDoes(s: Saver, env: Env)
    requires SaverInv(s) && env.now == s.now && CheckActivation(s, env).s.m.active != s.m.active
    ensures Woken(s, CheckActivation(s, env).s, env)
  {
    hide SaverInv, ListenerSetActive, Woken;
    SetActiveDoes(s, true, env);
  }

  lemma DropDoes(s: Saver, cookies: set<nat>, failed: set<nat>, env: Env, r: Saver)
    requires env.now == s.now && r == CheckActivation(s.(l := DropInhibitors(s.l, cookies, failed)), env).s
    requires SaverInv(s)
    ensures DropTaken(s, cookies, failed, r, env)
  {
    DropKeeps(s, cookies, failed, env);
    hide SaverInv, CheckActivation, DropInhibitors, Woken, Dropped, Released;
    if r.m.active != s.m.active {
      DroppedListener(s, cookies, failed);
      DropReleases(s.l, cookies, failed);
      CheckDoes(s.(l := DropInhibitors(s.l, cookies, failed)), env);
    }
  }

  ghost predicate UnInhibitTaken(s: Saver, cookie: nat, failed: set<nat>, r: Saver, env: Env) {
    if cookie in s.l.inhibitors then DropTaken(s, {cookie}, failed, r, env) else r == s
  }

  lemma UnInhibitDoes(s: Saver, cookie: nat, failed: set<nat>, env: Env)
    requires SaverInv(s) && env.now == s.now
    ensures UnInhibitTaken(s, cookie, failed, RemoveInhibitor(s, cookie, failed, env), env)
  {
    hide SaverInv, CheckActivation, DropInhibitors, DropTaken;
    if cookie in s.l.inhibitors {
      DropDoes(s, {cookie}, failed, env, RemoveInhibitor(s, cookie, failed, env));
    }
  }

  /** These throttlers and no others; the savers are throttled exactly if there are any. */
  ghost predicate ThrottlersAre(s: Saver, throttlers: map<nat, Entry>, r: Saver, env: Env) {
    && r == s.(l := s.l.(throttlers := throttlers, throttled := throttlers != map[]), m := r.m)
    && ThrottleTaken(s.m, r.m, throttlers != map[], env)
  }

  lemma ThrottlersDo(s: Saver, throttlers: map<nat, Entry>, env: Env)
    requires SaverInv(s) && env.now == s.now
    ensures ThrottlersAre(s, throttlers, CheckThrottle(s.(l := s.l.(throttlers := throttlers)), env), env)
  {
    assert s.l.throttled == s.m.throttled;
    ThrottleEnds(s.m, throttlers != map[], env, s.now);
    hide SaverInv, SetThrottled, AllStarted, NoProcess;
  }

  ghost predicate ThrottleRequested(s: Saver, connection: string, cookie: nat, r: Saver, env: Env) {
    if !(0 < cookie < 0x7FFF_FFFF) || cookie in s.l.throttlers then r == s
    else ThrottlersAre(s, s.l.throttlers[cookie := Entry(cookie, connection, 0)], r, env)
  }

  lemma ThrottleDoes(s: Saver, connection: string, cookie: nat, env: Env)
    requires SaverInv(s) && env.now == s.now
    ensures ThrottleRequested(s, connection, cookie, AddThrottler(s, connection, cookie, env), env)
  {
    ThrottlersDo(s, s.l.throttlers[cookie := Entry(cookie, connection, 0)], env);
    hide SaverInv, CheckThrottle, ThrottlersAre;
  }

  ghost predicate UnThrottleTaken(s: Saver, cookie: nat, r: Saver, env: Env) {
    if cookie in s.l.throttlers then ThrottlersAre(s, s.l.throttlers - {cookie}, r, env) else r == s
  }

  lemma UnThrottleDoes(s: Saver, cookie: nat, env: Env)
    requires SaverInv(s) && env.now == s.now
    ensures UnThrottleTaken(s, cookie, RemoveThrottler(s, cookie, env), env)
  {
    ThrottlersDo(s, s.l.throttlers - {cookie}, env);
    hide SaverInv, CheckThrottle, ThrottlersAre;
  }

  /** First the connection's throttlers go, then its inhibitors; a connection without
      inhibitors causes no re-check. */
  ghost predicate ConnectionTaken(s: Saver, connection: string, failed: set<nat>, r: Saver, env: Env) {
    var throttles := set c | c in s.l.throttlers && s.l.throttlers[c].connection == connection;
    var inhibits := set c | c in s.l.inhibitors && s.l.inhibitors[c].connection == connection;
    exists s1 ::
      ThrottlersAre(s, s.l.throttlers - throttles, s1, env) && InhibitorsTaken(s1, inhibits, failed, r, env)
  }

  ghost predicate InhibitorsTaken(s: Saver, cookies: set<nat>, failed: set<nat>, r: Saver, env: Env) {
    if cookies == {} then r == s else DropTaken(s, cookies, failed, r, env)
  }

  lemma ThrottlersGoneDoes(s: Saver, connection: string, env: Env)
    requires SaverInv(s) && env.now == s.now
    ensures ThrottlersAre(s, s.l.throttlers - OfConnection(s.l.throttlers, connection), ThrottlersGone(s, connection, env), env)
  {
    var throttles := OfConnection(s.l.throttlers, connection);
    ThrottlersDo(s, s.l.throttlers - throttles, env);
    if throttles == {} {
      assert s.l.throttlers - throttles == s.l.throttlers;
      assert (s.l.throttled <==> s.l.throttlers != map[]) && s.m.throttled == s.l.throttled;
      assert s.(l := s.l.(throttlers := s.l.throttlers)) == s;
      hide SaverInv, ThrottlersAre, OfConnection;
    } else {
      hide SaverInv, CheckThrottle, ThrottlersAre, OfConnection;
    }
  }

  lemma ConnectionDoes(s: Saver, connection: string, failed: set<nat>, env: Env)
    requires SaverInv(s) && env.now == s.now
    ensures ConnectionTaken(s, connection, failed, ServiceDeleted(s, connection, failed, env), env)
  {
    var s1 := ThrottlersGone(s, connection, env);
    ThrottlersGoneKeeps(s, connection, env);
    ThrottlersGoneDoes(s, connection, env);
    InhibitorsGoneDo(s1, connection, failed, env);
    hide SaverInv, ThrottlersGone, InhibitorsGone, ThrottlersAre, OfConnection, InhibitorsTaken, Gentle;
  }

  lemma InhibitorsGoneDo(s: Saver, connection: string, failed: set<nat>, env: Env)
    requires SaverInv(s) && env.now == s.now
    ensures InhibitorsTaken(s, OfConnection(s.l.inhibitors, connection), failed, InhibitorsGone(s, connection, failed, env), env)
  {
    var inhibits := OfConnection(s.l.inhibitors, connection);
    hide SaverInv, OfConnection, DropTaken, CheckActivation, DropInhibitors;
    if inhibits != {} {
      DropDoes(s, inhibits, failed, env, InhibitorsGone(s, connection, failed, env));
    }
  }
}
