/** The invariant of the whole screensaver, kept by every callback and so true in every
    state of every run. */
module ScreensaverProofs {
  import opened ManagerModel
  import opened ManagerProofs
  import opened ManagerLifecycle
  import opened ScreensaverModel

  // ----- The invariant ---------------------------------------------------------

  predicate KeysOk(table: map<nat, Entry>) {
    forall c :: c in table ==> table[c].cookie == c && 0 < c < MAX_COOKIE
  }

  predicate Proxied(table: map<nat, Entry>, f: nat) {
    exists c :: c in table && table[c].foreign == f
  }

  /** The inhibit ledger: the session manager holds exactly the proxied inhibits of the
      table, one for one, plus those whose release failed. */
  ghost predicate LedgerOk(table: map<nat, Entry>, session: set<nat>, leaked: set<nat>) {
    && KeysOk(table)
    && 0 !in session && 0 !in leaked
    && (forall c, d :: c in table && d in table && c != d && table[c].foreign != 0 ==> table[c].foreign != table[d].foreign)
    && (forall c :: c in table && table[c].foreign != 0 ==> table[c].foreign in session && table[c].foreign !in leaked)
    && (forall f {:trigger Proxied(table, f)} :: f in session ==> f in leaked || Proxied(table, f))
    && leaked <= session
  }

  /** Start times are set exactly while their flags are. */
  predicate StartsOk(l: Listener, now: nat) {
    && (if l.active then 0 < l.activeStart <= now / 1000 else l.activeStart == 0)
    && (if l.sessionIdle then 0 < l.idleStart <= now / 1000 else l.idleStart == 0)
  }

  ghost predicate ListenerOk(l: Listener, now: nat) {
    && (l.active ==> l.sessionIdle)
    && (l.sessionIdle && !l.active ==> l.idleWhileDisabled)
    && StartsOk(l, now)
    && LedgerOk(l.inhibitors, l.session, l.leaked)
    && KeysOk(l.throttlers)
    && (l.throttled <==> l.throttlers != map[])
  }

  /** Component agreement. */
  predicate Agree(s: Saver) {
    && s.w.enabled
    && s.l.active == s.m.active
    && s.w.active == !s.m.active
    && s.m.throttled == s.l.throttled
  }

  ghost predicate SaverInv(s: Saver) {
    && s.now >= 1000
    && Inv(s.m, s.now)
    && ListenerOk(s.l, s.now)
    && Agree(s)
  }

  // ----- Activating and deactivating through the listener ----------------------

  /** Ready to activate; the session-idle flag may be anything, since callers set it first. */
  ghost predicate Poised(s: Saver) {
    && s.now >= 1000
    && Ready(s.m, s.now)
    && s.w.enabled && s.w.active && !s.l.active
    && s.m.throttled == s.l.throttled
  }

  ghost predicate TurnedOn(s: Saver, r: Saver) {
    && r.l == SetActiveInternal(s.l, true, s.now)
    && r.w == WatcherSetActive(s.w, false)
    && Inv(r.m, s.now) && Started(s.m, r.m)
    && r.now == s.now && r.lockDisabled == s.lockDisabled
  }

  lemma ActivateThroughListener(s: Saver, env: Env)
    requires Poised(s) && env.now == s.now
    ensures var r := ListenerSetActive(s, true, env);
            && r.ok == env.grab
            && (if r.ok then TurnedOn(s, r.s) else r.s == s.(l := SetIdleInternal(s.l, false, s.now)))
  {
    ActivateKeeps(s.m, env);
    hide Activate, Inv, Deactivate;
  }

  lemma InactiveIsReady(m: Manager, now: nat)
    requires Inv(m, now) && !m.active
    ensures Ready(m, now) && !m.lockActive
  {
    hide Base;
    assert m.(lockActive := false) == m;
  }

  /** The queues of deferred deactivations are the same. */
  predicate SameIdles(m: Manager, r: Manager) {
    r.out.windowIdles == m.out.windowIdles && r.out.managerIdles == m.out.managerIdles
  }

  /** What a step may do that is not an explicit request: wake the saver only when
      nothing inhibits it and activation is enabled; never unlock it or put it to sleep. */
  ghost predicate Gentle(s: Saver, r: Saver) {
    && SameIdles(s.m, r.m)
    && r.now == s.now && r.lockDisabled == s.lockDisabled
    && r.l.activationEnabled == s.l.activationEnabled
    && r.m.lockEnabled == s.m.lockEnabled
    && (s.m.active ==> r.m.active) && r.m.lockActive == s.m.lockActive
    && (r.m.timers.lapsed ==> s.m.timers.lapsed)
    && (!s.l.active && r.l.active ==> r.l.inhibitors == map[] && r.l.activationEnabled)
  }

  lemma ListenerAfterOn(l: Listener, now: nat)
    requires ListenerOk(l, now) && now >= 1000 && !l.active
    ensures ListenerOk(SetActiveInternal(l, true, now), now)
  {
    hide LedgerOk, KeysOk;
  }

  lemma ListenerAfterIdle(l: Listener, now: nat)
    requires ListenerOk(l, now) && now >= 1000 && !l.active
    ensures ListenerOk(SetIdleInternal(l, false, now), now)
  {
    hide LedgerOk, KeysOk;
  }

  lemma ListenerAfterOff(l: Listener, now: nat)
    requires ListenerOk(l, now) && now >= 1000 && l.active
    ensures ListenerOk(SetActiveInternal(l, false, now), now)
  {
    hide LedgerOk, KeysOk;
  }

  lemma TurnOn(s: Saver, env: Env)
    requires SaverInv(s) && !s.l.active && env.now == s.now
    ensures var r := ListenerSetActive(s, true, env);
            && SaverInv(r.s)
            && r.ok == env.grab
            && (if r.ok then TurnedOn(s, r.s) else r.s == s.(l := SetIdleInternal(s.l, false, s.now)))
  {
    hide Inv, ListenerSetActive, ListenerOk;
    InactiveIsReady(s.m, s.now);
    ActivateThroughListener(s, env);
    ListenerAfterOn(s.l, s.now);
    ListenerAfterIdle(s.l, s.now);
  }

  lemma TurnOff(s: Saver, env: Env)
    requires SaverInv(s) && env.now == s.now
    ensures var r := ListenerSetActive(s, false, env);
            && SaverInv(r.s)
            && r.ok == s.l.active
            && (r.ok ==> Torn(s.m, r.s.m))
            && (!r.ok ==> r.s == s)
            && r.s.now == s.now && r.s.lockDisabled == s.lockDisabled && r.s.l.inhibitors == s.l.inhibitors
            && r.s.l.activationEnabled == s.l.activationEnabled
  {
    if s.l.active {
      DeactivateKeeps(s.m, env, s.now);
      hide Inv, Activate, Deactivate, ListenerOk;
      ListenerAfterOff(s.l, s.now);
    }
  }

  /** The same inhibitors, throttlers and proxied inhibits, and the same flags about them. */
  predicate SameTables(l: Listener, r: Listener) {
    && r.inhibitors == l.inhibitors && r.throttlers == l.throttlers && r.throttled == l.throttled
    && r.session == l.session && r.leaked == l.leaked && r.activationEnabled == l.activationEnabled
  }

  /** Nothing stands in the way of activating an idle session. */
  predicate Unopposed(l: Listener) {
    l.activationEnabled && l.inhibitors == map[]
  }

  /** A re-check activates an idle session exactly if nothing opposes it and the grab
      succeeds, and does nothing else but give up the idleness when the grab fails. */
  lemma CheckActivationKeeps(s: Saver, env: Env)
    requires SaverInv(s) && env.now == s.now
    ensures var r := CheckActivation(s, env);
            && SaverInv(r.s) && Gentle(s, r.s) && SameTables(s.l, r.s.l)
            && (r.s.m.active <==> s.m.active || (s.l.sessionIdle && Unopposed(s.l) && env.grab))
            && (r.s.m.active == s.m.active ==> r.s.m == s.m && r.s.w == s.w)
  {
    hide Inv, ListenerSetActive, ListenerOk;
    if s.l.activationEnabled && s.l.sessionIdle && s.l.inhibitors == map[] {
      if s.l.active {
        AlreadyActive(s, env);
      } else {
        TurnOn(s, env);
      }
    }
  }

  lemma AlreadyActive(s: Saver, env: Env)
    requires s.l.active
    ensures ListenerSetActive(s, true, env) == Result(s, false)
  {
  }

  // ----- Idleness --------------------------------------------------------------

  lemma IdleSet(l: Listener, now: nat)
    requires ListenerOk(l, now) && now >= 1000 && !l.active && !l.sessionIdle && !l.activationEnabled
    ensures ListenerOk(SetIdleInternal(l.(sessionIdle := true), true, now), now)
  {
    hide LedgerOk, KeysOk;
  }

  lemma IdleAndActive(l: Listener, now: nat)
    requires ListenerOk(l, now) && now >= 1000 && !l.active && !l.sessionIdle
    ensures ListenerOk(SetIdleInternal(SetActiveInternal(l.(sessionIdle := true), true, now), true, now), now)
  {
    hide LedgerOk, KeysOk;
  }

  lemma IdleRefused(l: Listener, now: nat)
    requires ListenerOk(l, now) && now >= 1000 && !l.active && !l.sessionIdle
    ensures ListenerOk(SetIdleInternal(l.(sessionIdle := true), false, now), now)
  {
    hide LedgerOk, KeysOk;
  }

  /** Becoming idle: refused while inhibited, undone when the grab fails, remembered
      without activation when activation is disabled, and an activation otherwise. */
  lemma BecomeIdle(s: Saver, env: Env)
    requires SaverInv(s) && env.now == s.now
    ensures var r := ListenerSetSessionIdle(s, true, env);
            && SaverInv(r.s) && Gentle(s, r.s)
            && r.s.w == (if r.s.m.active != s.m.active then WatcherSetActive(s.w, false) else s.w)
  {
    assert s.l.active ==> s.l.sessionIdle;
    hide Inv, ListenerSetActive, ListenerOk;
    if !s.l.sessionIdle && s.l.inhibitors == map[] {
      InactiveIsReady(s.m, s.now);
      var s1 := s.(l := s.l.(sessionIdle := true));
      ActivateThroughListener(s1, env);
      IdleAndActive(s.l, s.now);
      IdleRefused(s.l, s.now);
      if !s.l.activationEnabled {
        IdleSet(s.l, s.now);
      }
    }
  }

  lemma BecomeActiveUser(s: Saver, env: Env)
    requires SaverInv(s) && env.now == s.now && !s.m.active
    ensures var r := ListenerSetSessionIdle(s, false, env);
            SaverInv(r.s) && Gentle(s, r.s) && r.s.w == s.w
  {
    hide Inv, LedgerOk, KeysOk;
  }

  lemma WatcherStep(s: Saver, w: Watcher)
    requires SaverInv(s) && w.enabled == s.w.enabled && w.active == s.w.active
    ensures SaverInv(s.(w := w)) && Gentle(s, s.(w := w))
  {
    hide Inv, ListenerOk;
  }

  lemma GentleTwice(a: Saver, b: Saver, c: Saver)
    requires Gentle(a, b) && Gentle(b, c) && c.l.inhibitors == b.l.inhibitors
    ensures Gentle(a, c)
  {
  }

  lemma NoticeKeeps(s: Saver, notice: bool)
    requires SaverInv(s)
    ensures SaverInv(WatcherSetNotice(s, notice)) && Gentle(s, WatcherSetNotice(s, notice))
    ensures WatcherSetNotice(s, notice).w.active == s.w.active && WatcherSetNotice(s, notice).w.enabled == s.w.enabled
    ensures WatcherSetNotice(s, notice).l == s.l && WatcherSetNotice(s, notice).m == s.m
  {
    hide Inv, ListenerOk;
  }

  /** The watcher's idle timer: the chain through listener, monitor and manager comes
      back to the watcher, and all of them still agree. */
  lemma IdleTimeoutKeeps(s: Saver, env: Env)
    requires SaverInv(s) && env.now == s.now
    ensures SaverInv(OnIdleTimeout(s, env)) && Gentle(s, OnIdleTimeout(s, env))
  {
    if s.w.idleTimer {
      var r := WatcherSetIdle(s, true, env);
      IdleChainKeeps(s, env);
      hide SaverInv, WatcherSetIdle;
      var s1 := WatcherSetNotice(r.s, false);
      NoticeKeeps(r.s, false);
      WatcherStep(s1, s1.w.(idleTimer := false));
      GentleTwice(s, r.s, s1);
    } else {
      hide SaverInv;
    }
  }

  lemma IdleChainKeeps(s: Saver, env: Env)
    requires SaverInv(s) && env.now == s.now
    ensures SaverInv(WatcherSetIdle(s, true, env).s) && Gentle(s, WatcherSetIdle(s, true, env).s)
  {
    if !s.w.idle {
      var r := ListenerSetSessionIdle(s, true, env);
      BecomeIdle(s, env);
      hide SaverInv, ListenerSetSessionIdle;
      WatcherStep(r.s, r.s.w.(idle := true));
      GentleTwice(s, r.s, r.s.(w := r.s.w.(idle := true)));
    } else {
      hide SaverInv;
    }
  }

  lemma UserReturns(s: Saver, env: Env)
    requires SaverInv(s) && env.now == s.now && !s.m.active
    ensures var r := WatcherSetIdle(s, false, env).s;
            SaverInv(r) && Gentle(s, r)
  {
    hide SaverInv, ListenerSetSessionIdle;
    GentleSelf(s);
    if s.w.idle {
      var r := ListenerSetSessionIdle(s, false, env);
      BecomeActiveUser(s, env);
      WatcherStep(r.s, r.s.w.(idle := false));
      GentleTwice(s, r.s, r.s.(w := r.s.w.(idle := false)));
    }
  }

  lemma PresenceKeeps(s: Saver, status: nat, env: Env)
    requires SaverInv(s) && env.now == s.now
    ensures SaverInv(SetStatus(s, status, env)) && Gentle(s, SetStatus(s, status, env))
  {
    assert s.w.active ==> !s.m.active;
    hide SaverInv, WatcherSetIdle, WatcherSetNotice, Gentle;
    GentleSelf(s);
    if s.w.active {
      if status == 3 {
        var s1 := WatcherSetNotice(s, true);
        NoticeKeeps(s, true);
        WatcherStep(s1, s1.w.(idleTimer := true));
        GentleTwice(s, s1, s1.(w := s1.w.(idleTimer := true)));
      } else if s.w.idleNotice {
        var s1 := s.(w := s.w.(idleTimer := false));
        WatcherStep(s, s1.w);
        var s2 := WatcherSetIdle(s1, false, env).s;
        UserReturns(s1, env);
        NoticeKeeps(s2, false);
        GentleAgain(s, s1, s2);
        GentleTwice(s, s2, WatcherSetNotice(s2, false));
      }
    }
  }

  // ----- The ledgers -----------------------------------------------------------

  lemma AddProxied(l: Listener, connection: string, cookie: nat, answer: nat)
    requires LedgerOk(l.inhibitors, l.session, l.leaked) && FreshCookie(l.inhibitors, cookie)
    ensures var f := ForeignCookie(l, answer);
            LedgerOk(l.inhibitors[cookie := Entry(cookie, connection, f)],
                     if f == 0 then l.session else l.session + {f}, l.leaked)
  {
    var f := ForeignCookie(l, answer);
    var t := l.inhibitors[cookie := Entry(cookie, connection, f)];
    var session := if f == 0 then l.session else l.session + {f};
    forall g | g in session ensures g in l.leaked || Proxied(t, g) {
      if g == f {
        assert t[cookie].foreign == g;
      } else {
        assert g in l.leaked || Proxied(l.inhibitors, g);
        if g !in l.leaked {
          var c :| c in l.inhibitors && l.inhibitors[c].foreign == g;
          assert t[c].foreign == g;
        }
      }
    }
  }

  lemma DropProxied(l: Listener, cookies: set<nat>, failed: set<nat>)
    requires LedgerOk(l.inhibitors, l.session, l.leaked)
    ensures var r := DropInhibitors(l, cookies, failed);
            LedgerOk(r.inhibitors, r.session, r.leaked)
  {
    var r := DropInhibitors(l, cookies, failed);
    var back := Foreigns(l.inhibitors, cookies);
    forall c | c in r.inhibitors && r.inhibitors[c].foreign != 0
      ensures r.inhibitors[c].foreign !in back
    {
      assert l.inhibitors[c] == r.inhibitors[c];
    }
    forall f | f in r.session ensures f in r.leaked || Proxied(r.inhibitors, f) {
      assert f in l.leaked || Proxied(l.inhibitors, f);
      if f !in r.leaked {
        var c :| c in l.inhibitors && l.inhibitors[c].foreign == f;
        assert c in cookies ==> f in back;
        assert r.inhibitors[c].foreign == f;
      }
    }
    assert back <= l.session;
    assert forall f :: f in l.leaked ==> f !in back;
  }

  /** The listener with one more inhibitor. */
  function Inhibited(l: Listener, connection: string, cookie: nat, f: nat): Listener {
    l.(inhibitors := l.inhibitors[cookie := Entry(cookie, connection, f)],
       session := if f == 0 then l.session else l.session + {f})
  }

  lemma InhibitedOk(s: Saver, connection: string, cookie: nat, answer: nat)
    requires FreshCookie(s.l.inhibitors, cookie)
    requires SaverInv(s)
    ensures SaverInv(s.(l := Inhibited(s.l, connection, cookie, ForeignCookie(s.l, answer))))
  {
    hide Inv, LedgerOk, KeysOk, ForeignCookie, FreshCookie;
    AddProxied(s.l, connection, cookie, answer);
  }

  lemma InhibitKeeps(s: Saver, connection: string, cookie: nat, answer: nat, env: Env)
    requires SaverInv(s) && env.now == s.now
    ensures var r := AddInhibitor(s, connection, cookie, answer, env);
            && SaverInv(r) && Gentle(s, r)
            && (FreshCookie(s.l.inhibitors, cookie) ==> cookie in r.l.inhibitors && r.l.active == s.l.active)
  {
    hide SaverInv, FreshCookie, ForeignCookie, CheckActivation;
    if FreshCookie(s.l.inhibitors, cookie) {
      InhibitedOk(s, connection, cookie, answer);
      InhibitedStaysPut(s.(l := Inhibited(s.l, connection, cookie, ForeignCookie(s.l, answer))), cookie, env);
    }
  }

  lemma InhibitedStaysPut(s: Saver, cookie: nat, env: Env)
    requires cookie in s.l.inhibitors
    ensures CheckActivation(s, env).s == s
  {
  }

  lemma DroppedListener(s: Saver, cookies: set<nat>, failed: set<nat>)
    requires SaverInv(s)
    ensures SaverInv(s.(l := DropInhibitors(s.l, cookies, failed)))
  {
    DropProxied(s.l, cookies, failed);
    hide Inv, LedgerOk, KeysOk, Foreigns;
  }

  /** The session manager's inhibit `f` belongs to one of these entries. */
  predicate HeldBy(table: map<nat, Entry>, cookies: set<nat>, f: nat) {
    f != 0 && exists c :: c in cookies && c in table && table[c].foreign == f
  }

  /** Exactly these inhibitors are gone, and their proxied inhibits given back; one whose
      release failed stays with the session manager for good. */
  ghost predicate Released(l: Listener, r: Listener, cookies: set<nat>, failed: set<nat>) {
    && r.inhibitors == l.inhibitors - cookies
    && r.throttlers == l.throttlers && r.throttled == l.throttled && r.activationEnabled == l.activationEnabled
    && (forall f :: f in r.session <==> f in l.session && !(HeldBy(l.inhibitors, cookies, f) && f !in failed))
    && (forall f :: f in r.leaked <==> f in l.leaked || (HeldBy(l.inhibitors, cookies, f) && f in failed))
  }

  lemma DropReleases(l: Listener, cookies: set<nat>, failed: set<nat>)
    ensures Released(l, DropInhibitors(l, cookies, failed), cookies, failed)
  {
    assert forall f :: f in Foreigns(l.inhibitors, cookies) <==> HeldBy(l.inhibitors, cookies, f);
  }

  /** Without these inhibitors: an idle session that nothing opposes any more is activated
      if the grab succeeds; otherwise neither manager nor watcher has moved. */
  ghost predicate Dropped(s: Saver, r: Saver, cookies: set<nat>, failed: set<nat>, env: Env) {
    && SaverInv(r) && Gentle(s, r) && Released(s.l, r.l, cookies, failed)
    && (r.m.active <==> s.m.active || (s.l.sessionIdle && s.l.activationEnabled && s.l.inhibitors - cookies == map[] && env.grab))
    && (r.m.active == s.m.active ==> r.m == s.m && r.w == s.w)
  }

  lemma DropKeeps(s: Saver, cookies: set<nat>, failed: set<nat>, env: Env)
    requires SaverInv(s) && env.now == s.now
    ensures Dropped(s, CheckActivation(s.(l := DropInhibitors(s.l, cookies, failed)), env).s, cookies, failed, env)
  {
    var s1 := s.(l := DropInhibitors(s.l, cookies, failed));
    DroppedListener(s, cookies, failed);
    DropReleases(s.l, cookies, failed);
    hide SaverInv, CheckActivation, Foreigns, HeldBy;
    CheckActivationKeeps(s1, env);
  }

  /** Removing an inhibitor removes it alone; an unknown cookie changes nothing. */
  lemma UnInhibitKeeps(s: Saver, cookie: nat, failed: set<nat>, env: Env)
    requires SaverInv(s) && env.now == s.now
    ensures var r := RemoveInhibitor(s, cookie, failed, env);
            && SaverInv(r) && Gentle(s, r)
            && (if cookie in s.l.inhibitors then Dropped(s, r, {cookie}, failed, env) else r == s)
  {
    hide SaverInv, CheckActivation, DropInhibitors, Released;
    if cookie in s.l.inhibitors {
      DropKeeps(s, {cookie}, failed, env);
    }
  }

  /** Throttlers and the savers' throttle flag stay in step. */
  lemma ThrottleKeeps(s: Saver, throttlers: map<nat, Entry>, env: Env)
    requires SaverInv(s) && env.now == s.now && KeysOk(throttlers)
    ensures var r := CheckThrottle(s.(l := s.l.(throttlers := throttlers)), env);
            && SaverInv(r) && Gentle(s, r) && r.l.throttlers == throttlers && r.l.inhibitors == s.l.inhibitors
            && r.m.throttled == (throttlers != map[]) && r.l.active == s.l.active
  {
    SetThrottledKeeps(s.m, throttlers != map[], env, s.now);
    hide Inv, LedgerOk, KeysOk, SetThrottled;
  }

  lemma ThrottlersGoneKeeps(s: Saver, connection: string, env: Env)
    requires SaverInv(s) && env.now == s.now
    ensures var r := ThrottlersGone(s, connection, env);
            && SaverInv(r) && Gentle(s, r) && r.l.active == s.l.active && r.now == s.now
            && r.l.throttlers == s.l.throttlers - OfConnection(s.l.throttlers, connection)
            && r.l.inhibitors == s.l.inhibitors
  {
    var throttles := OfConnection(s.l.throttlers, connection);
    var t := s.l.throttlers - throttles;
    assert KeysOk(t);
    assert throttles == {} ==> t == s.l.throttlers;
    hide SaverInv, CheckThrottle, OfConnection, KeysOk;
    ThrottleKeeps(s, t, env);
    GentleSelf(s);
  }

  /** Losing a connection removes exactly that connection's entries. */
  lemma ConnectionLostKeeps(s: Saver, connection: string, failed: set<nat>, env: Env)
    requires SaverInv(s) && env.now == s.now
    ensures var r := ServiceDeleted(s, connection, failed, env);
            && SaverInv(r) && Gentle(s, r)
            && r.l.throttlers == s.l.throttlers - OfConnection(s.l.throttlers, connection)
            && r.l.inhibitors == s.l.inhibitors - OfConnection(s.l.inhibitors, connection)
  {
    hide SaverInv, CheckActivation, OfConnection, DropInhibitors, CheckThrottle, Gentle, HeldBy;
    var s1 := ThrottlersGone(s, connection, env);
    ThrottlersGoneKeeps(s, connection, env);
    hide ThrottlersGone;
    var inhibits := OfConnection(s.l.inhibitors, connection);
    if inhibits == {} {
      assert s1.l.inhibitors - inhibits == s1.l.inhibitors;
      assert ServiceDeleted(s, connection, failed, env) == s1;
    } else {
      var r := CheckActivation(s1.(l := DropInhibitors(s1.l, inhibits, failed)), env).s;
      DropKeeps(s1, inhibits, failed, env);
      GentleAgain(s, s1, r);
      assert ServiceDeleted(s, connection, failed, env) == r;
    }
  }

  lemma GentleSelf(s: Saver)
    ensures Gentle(s, s)
  {
  }

  lemma GentleAgain(a: Saver, b: Saver, c: Saver)
    requires Gentle(a, b) && Gentle(b, c) && (b.l.active == a.l.active)
    ensures Gentle(a, c)
  {
  }

  // ----- Locking and preferences -----------------------------------------------

  /** An explicit lock: on success the saver is active and locked; on failure nothing but
      the idle flag has moved. */
  lemma LockScreenKeeps(s: Saver, env: Env)
    requires SaverInv(s) && env.now == s.now
    ensures var r := LockScreen(s, env);
            && SaverInv(r) && SameIdles(s.m, r.m)
            && r.now == s.now && r.lockDisabled == s.lockDisabled && r.m.lockEnabled == s.m.lockEnabled
            && (s.m.active || env.grab ==> r.m.active && r.m.lockActive)
            && (!s.m.active && !env.grab ==> r == s.(l := SetIdleInternal(s.l, false, s.now)))
            && (r.m.timers.lapsed ==> s.m.timers.lapsed)
  {
    if s.m.active {
      LockKeeps(s.m, s.now);
      hide Inv, SetLockActive, ListenerOk;
    } else {
      assert s.m.win == map[];
      LockBeforeActivation(s.m, true);
      LockBeforeActivation(s.m.(lockActive := true), s.m.lockActive);
      InactiveIsReady(s.m, s.now);
      ReadyLocked(s.m, s.now);
      var s1 := s.(m := s.m.(lockActive := true));
      hide Inv, SetLockActive, ListenerOk, ListenerSetActive, Ready;
      ActivateThroughListener(s1, env);
      ListenerAfterOn(s.l, s.now);
      ListenerAfterIdle(s.l, s.now);
    }
  }

  lemma ReadyLocked(m: Manager, now: nat)
    requires Ready(m, now)
    ensures Ready(m.(lockActive := true), now)
  {
    hide Inv;
    assert m.(lockActive := true).(lockActive := false) == m.(lockActive := false);
  }

  /** The manager's share of new preferences. */
  function PrefsManager(m: Manager, p: Prefs, now: nat): Manager {
    SetCycleTimeout(SetLockTimeout(SetLockEnabled(m, p.lockEnabled && !p.lockDisabled),
                                   Clamp(0, p.lockMinutes, 480) * 60000, now),
                    Clamp(1, p.cycleMinutes, 480) * 60000)
  }

  predicate OnlyTightened(m: Manager, r: Manager) {
    && SameIdles(m, r) && r.active == m.active && (m.lockActive ==> r.lockActive)
    && r.throttled == m.throttled && r.lockEnabled == m.lockEnabled
    && (r.timers.lapsed && !m.timers.lapsed ==> !r.lockEnabled)
  }

  lemma TimeoutTightens(m: Manager, lockTimeout: int, cycleTimeout: int, now: nat)
    requires Inv(m, now) && 0 <= lockTimeout <= MAX_LOCK_TIMEOUT
    ensures var r := SetCycleTimeout(SetLockTimeout(m, lockTimeout, now), cycleTimeout);
            Inv(r, now) && OnlyTightened(m, r)
  {
    hide Inv, SetLockTimeout;
    SetLockTimeoutKeeps(m, lockTimeout, now);
    SetCycleTimeoutKeeps(SetLockTimeout(m, lockTimeout, now), cycleTimeout, now);
  }

  lemma PrefsManagerKeeps(m: Manager, p: Prefs, now: nat)
    requires Inv(m, now)
    ensures var r := PrefsManager(m, p, now);
            Inv(r, now) && OnlyTightened(SetLockEnabled(m, p.lockEnabled && !p.lockDisabled), r)
  {
    hide Inv, SetLockTimeout, SetCycleTimeout;
    LockEnabledKeeps(m, p.lockEnabled && !p.lockDisabled, now);
    TimeoutTightens(SetLockEnabled(m, p.lockEnabled && !p.lockDisabled), Clamp(0, p.lockMinutes, 480) * 60000,
                    Clamp(1, p.cycleMinutes, 480) * 60000, now);
  }

  /** The preferences as they are stored: minutes in milliseconds, between 0 (or 1) and 480
      minutes, and locking only if it is both wanted and not disabled. */
  predicate PrefsStored(p: Prefs, r: Saver) {
    && r.m.timers.lockTimeout ==
       (if p.lockMinutes < 0 then 0 else if p.lockMinutes > 480 then 28_800_000 else 60_000 * p.lockMinutes)
    && r.m.timers.cycleTimeout ==
       (if p.cycleMinutes < 1 then 60_000 else if p.cycleMinutes > 480 then 28_800_000 else 60_000 * p.cycleMinutes)
    && (r.m.lockEnabled <==> p.lockEnabled && !p.lockDisabled)
    && r.l.activationEnabled == p.idleActivation && r.lockDisabled == p.lockDisabled
  }

  lemma TimeoutStored(m: Manager, lockTimeout: int, now: nat)
    ensures var r := SetLockTimeout(m, lockTimeout, now);
            r.timers.lockTimeout == lockTimeout && r.timers.cycleTimeout == m.timers.cycleTimeout && r.lockEnabled == m.lockEnabled
  {
    hide WithLockEnabled, Elapsed;
  }

  lemma CycleStored(m: Manager, cycleTimeout: int)
    ensures var r := SetCycleTimeout(m, cycleTimeout);
            r.timers.cycleTimeout == cycleTimeout && r.timers.lockTimeout == m.timers.lockTimeout && r.lockEnabled == m.lockEnabled
  {
  }

  lemma PrefsArrive(s: Saver, p: Prefs)
    ensures PrefsStored(p, UpdateFromPrefs(s, p))
  {
    hide SetLockTimeout, SetCycleTimeout;
    var m1 := SetLockEnabled(s.m, p.lockEnabled && !p.lockDisabled);
    TimeoutStored(m1, Clamp(0, p.lockMinutes, 480) * 60000, s.now);
    var m2 := SetLockTimeout(m1, Clamp(0, p.lockMinutes, 480) * 60000, s.now);
    CycleStored(m2, Clamp(1, p.cycleMinutes, 480) * 60000);
  }

  /** New preferences may lock at once when the new timeout has already passed, and never
      unlock, activate or deactivate. */
  lemma PrefsKeep(s: Saver, p: Prefs)
    requires SaverInv(s)
    ensures var r := UpdateFromPrefs(s, p);
            && SaverInv(r) && SameIdles(s.m, r.m) && r.now == s.now
            && r.m.active == s.m.active && (s.m.lockActive ==> r.m.lockActive)
            && r.l.active == s.l.active
            && (r.m.timers.lapsed && !s.m.timers.lapsed ==> !r.m.lockEnabled)
            && PrefsStored(p, r)
  {
    PrefsArrive(s, p);
    PrefsManagerKeeps(s.m, p, s.now);
    assert UpdateFromPrefs(s, p).m == PrefsManager(s.m, p, s.now);
    hide Inv, LedgerOk, KeysOk, PrefsManager, SetCycleTimeout, SetLockTimeout, Clamp, PrefsStored;
  }

  lemma InitialOk(monitors: seq<MonitorId>, now: nat)
    requires Distinct(monitors) && monitors != []
    ensures Inv(Initial(monitors), now)
  {
  }

  /** At the start nothing is active, queued, inhibited or throttled. */
  predicate AtRest(s: Saver) {
    && !s.m.active && !s.m.timers.lapsed && s.m.out.windowIdles == [] && s.m.out.managerIdles == []
    && s.l.inhibitors == map[] && s.l.throttlers == map[]
  }

  /** The screensaver starts in order and at rest. */
  lemma StartOk(monitors: seq<MonitorId>, prefs: Prefs, now: nat)
    requires Distinct(monitors) && monitors != [] && now >= 1000
    ensures SaverInv(ScreensaverModel.Start(monitors, prefs, now)) && AtRest(ScreensaverModel.Start(monitors, prefs, now))
    ensures PrefsStored(prefs, ScreensaverModel.Start(monitors, prefs, now))
  {
    var l := Listener(false, false, false, false, map[], map[], 0, 0, {}, {}, false);
    var s := Saver(l, Watcher(true, true, false, false, false), Initial(monitors), now, false);
    assert UpdateFromPrefs(s.(w := s.w.(active := false)), prefs) == UpdateFromPrefs(s, prefs);
    InitialOk(monitors, now);
    assert SaverInv(s) && AtRest(s);
    PrefsKeep(s, prefs);
    hide Inv, SetLockTimeout, SetCycleTimeout;
  }
}
