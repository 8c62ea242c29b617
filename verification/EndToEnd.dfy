/** The saver, its unlock dialogs and their password helpers together: what a locked
    screen takes to be unlocked. */
module EndToEnd {
  import opened Options
  import opened JobTable
  import opened ManagerModel
  import opened ManagerProofs
  import opened ScreensaverModel
  import opened ScreensaverProofs
  import opened ScreensaverRuns
  import opened Answers
  import opened CallbackAnswers
  import opened Provenance
  import opened LockHolds
  import D = DialogProcess
  import H = LockStep

  // ----- The coupled system ------------------------------------------------------

  /** One verification of the user: a run of the conversation with a helper process. */
  datatype Helper = Helper(capacity: nat, actions: seq<H.Action>)

  function Conversation(h: Helper): H.System {
    H.Run(H.Initial(h.capacity), h.actions)
  }

  /** pam_authenticate succeeded in the helper. */
  predicate Passed(h: Helper) {
    Conversation(h).h == H.Exited(true)
  }

  /** A dialog process, and how many of its lines the window has read. */
  datatype Process = Process(d: D.Dialog, read: nat)

  datatype World = World(s: Saver, dialogs: map<WindowId, Process>)

  datatype Act =
    | Callback(event: Event, env: Env)     // of the saver, but for its dialogs
    | Spawn(window: WindowId, privileged: bool, arguments: bool, locking: bool, env: Env)
    | Verify(window: WindowId, helper: Helper)
    | InDialog(window: WindowId, step: D.Event)
    | ReadLine(window: WindowId, env: Env)
    | ReadFails(window: WindowId, env: Env)

  function LineOf(l: D.Line): DialogLine {
    match l
    case NoticeAuthFailed => OtherLine
    case ResponseOk => DialogLine.ResponseOk
    case ResponseCancel => DialogLine.ResponseCancel
    case RequestQuit => OtherLine
  }

  /** What the window's watch on the dialog's output sees next, if anything. */
  function NextLine(p: Process): Option<DialogLine> {
    if p.read < |p.d.out| then Some(LineOf(p.d.out[p.read]))
    else if !p.d.running then Some(EndOfOutput)
    else None
  }

  /** The callback of the saver that an act amounts to, if any.  Its dialogs print and are
      spawned only by the other acts. */
  function SaverInput(w: World, a: Act): Option<Input> {
    match a
    case Callback(e, env) => if e.DialogOutput? || (e.PopupIdle? && e.spawned) then None else Some(Input(e, env))
    case Spawn(window, _, _, _, env) => Some(Input(PopupIdle(window, true), env))
    case ReadLine(window, env) =>
      if window !in w.dialogs then None
      else
        var line := NextLine(w.dialogs[window]);
        if line.None? then None else Some(Input(DialogOutput(window, line.value), env))
    case ReadFails(window, env) => Some(Input(DialogOutput(window, ReadError), env))
    case _ => None
  }

  function SaverMoves(w: World, a: Act): Saver {
    match SaverInput(w, a)
    case None => w.s
    case Some(i) => Step(w.s, i.event, i.env)
  }

  function WithDialog(ds: map<WindowId, Process>, w: WindowId, d: D.Dialog): map<WindowId, Process> {
    if w in ds then ds[w := ds[w].(d := d)] else ds
  }

  function DialogsMove(w: World, a: Act): map<WindowId, Process> {
    var ds := w.dialogs;
    match a
    case Spawn(window, privileged, arguments, locking, _) =>
      if window in w.s.m.win && w.s.m.win[window].popupIdle
      then ds[window := Process(D.Start(privileged, arguments, locking), 0)] else ds
    case Verify(window, h) =>
      if window in ds && h.capacity > 0 && Conversation(h).d.Done?
      then WithDialog(ds, window, D.Step(ds[window].d, D.AuthCheck(Conversation(h).d.result))) else ds
    case InDialog(window, e) =>
      if window in ds && !e.AuthCheck? then WithDialog(ds, window, D.Step(ds[window].d, e)) else ds
    case ReadLine(window, _) =>
      if window in ds && ds[window].read < |ds[window].d.out|
      then ds[window := ds[window].(read := ds[window].read + 1)] else ds
    case _ => ds
  }

  function Move(w: World, a: Act): World {
    World(SaverMoves(w, a), DialogsMove(w, a))
  }

  /** The world after the first `i` acts. */
  function After(w0: World, acts: seq<Act>, i: nat): World
    requires i <= |acts|
  {
    if i == 0 then w0 else Move(After(w0, acts, i - 1), acts[i - 1])
  }

  function Begin(monitors: seq<MonitorId>, prefs: Prefs, now: nat): World {
    World(Start(monitors, prefs, now), map[])
  }

  // ----- Why a dialog may say OK --------------------------------------------------

  /** Act `a` starts a new dialog process for window `x`. */
  predicate Spawned(w: World, a: Act, x: WindowId) {
    a.Spawn? && a.window == x && x in w.s.m.win && w.s.m.win[x].popupIdle
  }

  /** Act `a` gives the dialog of window `x` the right to say OK: the dialog, waiting for an
      attempt, verifies the user with a helper in which pam_authenticate succeeds, or it is
      started and cannot initialise locking. */
  predicate Earns(w: World, a: Act, x: WindowId) {
    || (&& a.Verify? && a.window == x && x in w.dialogs && w.dialogs[x].d.running && w.dialogs[x].d.authIdle
        && a.helper.capacity > 0 && Conversation(a.helper).d.Done? && Passed(a.helper))
    || (Spawned(w, a, x) && (!a.privileged || (a.arguments && !a.locking)))
  }

  /** Act `j` earned it for the dialog that window `x` has before act `i`: no other dialog
      was started for that window since. */
  ghost predicate EarnedBy(w0: World, acts: seq<Act>, i: nat, x: WindowId, j: nat)
    requires i <= |acts|
  {
    && j < i && Earns(After(w0, acts, j), acts[j], x)
    && forall k :: j < k < i ==> !Spawned(After(w0, acts, k), acts[k], x)
  }

  ghost predicate Earned(w0: World, acts: seq<Act>, i: nat, x: WindowId)
    requires i <= |acts|
  {
    exists j :: EarnedBy(w0, acts, i, x, j)
  }

  lemma EarnedNow(w0: World, acts: seq<Act>, i: nat, x: WindowId)
    requires i < |acts| && Earns(After(w0, acts, i), acts[i], x)
    ensures Earned(w0, acts, i + 1, x)
  {
    hide Earns, After, Spawned;
    assert EarnedBy(w0, acts, i + 1, x, i);
  }

  lemma EarnedStays(w0: World, acts: seq<Act>, i: nat, x: WindowId)
    requires i < |acts| && Earned(w0, acts, i, x) && !Spawned(After(w0, acts, i), acts[i], x)
    ensures Earned(w0, acts, i + 1, x)
  {
    hide Earns, After, Spawned;
    var j :| EarnedBy(w0, acts, i, x, j);
    assert EarnedBy(w0, acts, i + 1, x, j);
  }

  /** The dialog has not said OK and has no reason to. */
  predicate Silent(d: D.Dialog) {
    !d.verified && D.ResponseOk !in d.out
  }

  /** One move: a dialog stops being silent only by an act that earns it, and a new dialog
      owes nothing to the one before. */
  lemma DialogMove(w: World, a: Act, x: WindowId)
    requires forall y :: y in w.dialogs ==> D.Inv(w.dialogs[y].d)
    requires x in DialogsMove(w, a)
    ensures D.Inv(DialogsMove(w, a)[x].d)
    ensures || Silent(DialogsMove(w, a)[x].d) || Earns(w, a, x)
            || (x in w.dialogs && !Silent(w.dialogs[x].d) && !Spawned(w, a, x))
  {
    hide D.Inv, Conversation;
    match a
    case Spawn(window, privileged, arguments, locking, _) => D.StartOk(privileged, arguments, locking);
    case Verify(window, h) =>
      if window == x && x in w.dialogs && h.capacity > 0 && Conversation(h).d.Done? {
        D.StepKeeps(w.dialogs[x].d, D.AuthCheck(Conversation(h).d.result));
        ResultIsPams(h);
      }
    case InDialog(window, e) =>
      if window == x && x in w.dialogs && !e.AuthCheck? {
        D.StepKeeps(w.dialogs[x].d, e);
        OkNeedsVerified(w.dialogs[x].d, e);
      }
    case _ =>
  }

  /** The dialog's verdict is PAM's. */
  lemma ResultIsPams(h: Helper)
    requires h.capacity > 0 && Conversation(h).d.Done?
    ensures Conversation(h).d.result <==> Passed(h)
  {
    H.VerdictIsPams(h.capacity, h.actions);
  }

  lemma OkNeedsVerified(d: D.Dialog, e: D.Event)
    requires D.Inv(d) && !e.AuthCheck?
    ensures D.Step(d, e).verified == d.verified
    ensures D.ResponseOk in D.Step(d, e).out ==> D.ResponseOk in d.out || d.verified
  {
    hide D.Count;
  }

  ghost predicate DialogsBacked(w0: World, acts: seq<Act>, i: nat)
    requires i <= |acts|
  {
    var w := After(w0, acts, i);
    forall x :: x in w.dialogs ==> D.Inv(w.dialogs[x].d) && (Silent(w.dialogs[x].d) || Earned(w0, acts, i, x))
  }

  lemma BackedMove(w0: World, acts: seq<Act>, i: nat, w: World, x: WindowId)
    requires i < |acts| && w == After(w0, acts, i) && x in DialogsMove(w, acts[i])
    requires DialogsBacked(w0, acts, i)
    ensures D.Inv(DialogsMove(w, acts[i])[x].d)
    ensures Silent(DialogsMove(w, acts[i])[x].d) || Earned(w0, acts, i + 1, x)
  {
    hide DialogsMove, Silent, D.Inv, Earns, Spawned, Earned, After;
    DialogMove(w, acts[i], x);
    if Earns(w, acts[i], x) {
      EarnedNow(w0, acts, i, x);
    } else if !Silent(DialogsMove(w, acts[i])[x].d) {
      EarnedStays(w0, acts, i, x);
    }
  }

  lemma NextDialogs(w0: World, acts: seq<Act>, i: nat)
    requires i < |acts|
    ensures After(w0, acts, i + 1).dialogs == DialogsMove(After(w0, acts, i), acts[i])
    ensures After(w0, acts, i + 1).s == SaverMoves(After(w0, acts, i), acts[i])
  {
    hide DialogsMove, SaverMoves;
  }

  lemma BackedStep(w0: World, acts: seq<Act>, i: nat)
    requires i < |acts|
    requires DialogsBacked(w0, acts, i)
    ensures DialogsBacked(w0, acts, i + 1)
  {
    var w, r := After(w0, acts, i), After(w0, acts, i + 1);
    NextDialogs(w0, acts, i);
    hide DialogsMove, Silent, D.Inv, Earned, After, SaverMoves;
    forall x | x in r.dialogs
      ensures D.Inv(r.dialogs[x].d) && (Silent(r.dialogs[x].d) || Earned(w0, acts, i + 1, x))
    {
      BackedMove(w0, acts, i, w, x);
    }
  }

  /** In every run of the coupled system, a dialog that says OK has earned it itself. */
  lemma {:induction false} EveryDialogBacked(w0: World, acts: seq<Act>, i: nat)
    requires w0.dialogs == map[] && i <= |acts|
    ensures DialogsBacked(w0, acts, i)
    decreases i
  {
    if i > 0 {
      hide DialogsBacked, After;
      EveryDialogBacked(w0, acts, i - 1);
      BackedStep(w0, acts, i - 1);
    }
  }

  // ----- The saver in the coupled system ------------------------------------------

  lemma SaverMovesOk(w: World, a: Act)
    requires RunInv(w.s)
    ensures RunInv(SaverMoves(w, a))
  {
    hide RunInv, Step, SaverInput;
    match SaverInput(w, a)
    case None =>
    case Some(i) => RunInvStep(w.s, i.event, i.env);
  }

  lemma {:induction false} EverySaverOk(w0: World, acts: seq<Act>, i: nat)
    requires RunInv(w0.s) && i <= |acts|
    ensures RunInv(After(w0, acts, i).s)
    decreases i
  {
    hide RunInv, SaverMoves, DialogsMove;
    if i > 0 {
      EverySaverOk(w0, acts, i - 1);
      SaverMovesOk(After(w0, acts, i - 1), acts[i - 1]);
    }
  }

  lemma BeginOk(monitors: seq<MonitorId>, prefs: Prefs, now: nat)
    requires Distinct(monitors) && monitors != [] && now >= 1000
    ensures RunInv(Begin(monitors, prefs, now).s)
  {
    hide RunInv, Start;
    ReachableOk(monitors, prefs, now, [], 0);
    FirstAt(Start(monitors, prefs, now), []);
  }

  // ----- What it takes to unlock ---------------------------------------------------

  /** Act `a`: window `x` reads RESPONSE=OK from its dialog, which it is watching. */
  predicate ReadsOk(w: World, a: Act, x: WindowId) {
    && a.ReadLine? && a.window == x && x in w.dialogs && NextLine(w.dialogs[x]) == Some(DialogLine.ResponseOk)
    && x in w.s.m.win && w.s.m.win[x].lockSource
  }

  /** At act `k`, window `x` reads an OK that this very dialog has earned. */
  ghost predicate EarnedOkRead(w0: World, acts: seq<Act>, k: nat, x: WindowId)
    requires k < |acts|
  {
    ReadsOk(After(w0, acts, k), acts[k], x) && Earned(w0, acts, k, x)
  }

  /** The saver hears OK from a dialog only by reading it. */
  lemma OkIsRead(w: World, a: Act, x: WindowId)
    requires SaverInput(w, a).Some? && SaysOk(w.s.m, SaverInput(w, a).value.event, x)
    ensures ReadsOk(w, a, x)
  {
  }

  lemma ReadOkIsEarned(w0: World, acts: seq<Act>, k: nat, w: World, x: WindowId)
    requires k < |acts| && w == After(w0, acts, k) && ReadsOk(w, acts[k], x)
    requires DialogsBacked(w0, acts, k)
    ensures EarnedOkRead(w0, acts, k, x)
  {
    hide D.Inv, Earned, After;
    var p := w.dialogs[x];
    assert p.d.out[p.read] == D.ResponseOk;
  }

  /** Act `k` is an explicit request to deactivate, or an earned OK is read. */
  ghost predicate ReleasedAt(w0: World, acts: seq<Act>, k: nat)
    requires k < |acts|
  {
    || (acts[k].Callback? && acts[k].event == SetActiveRequest(false))
    || (acts[k].ReadLine? && EarnedOkRead(w0, acts, k, acts[k].window))
  }

  ghost predicate ReleasedBetween(w0: World, acts: seq<Act>, i: nat, j: nat)
    requires j <= |acts|
  {
    exists k :: i <= k < j && ReleasedAt(w0, acts, k)
  }

  /** A line from a dialog that is not watched changes nothing. */
  lemma UnwatchedLine(s: Saver, e: Event, env: Env)
    requires e.DialogOutput? && !(e.window in s.m.win && s.m.win[e.window].lockSource)
    ensures Step(s, e, env) == s
  {
  }

  /** Only a release unlocks: an explicit request, or an OK that is read. */
  lemma OnlyReleaseUnlocks(w: World, a: Act)
    requires RunInv(w.s) && LockedFast(w.s)
    ensures || LockedFast(SaverMoves(w, a))
            || (a.Callback? && a.event == SetActiveRequest(false))
            || (a.ReadLine? && ReadsOk(w, a, a.window))
  {
    hide RunInv, LockedFast, Step;
    var input := SaverInput(w, a);
    if input.Some? {
      var e := input.value.event;
      if !Releases(e) {
        LockedOneStep(w.s, e, input.value.env);
      } else if e.DialogOutput? && !SaysOk(w.s.m, e, e.window) {
        UnwatchedLine(w.s, e, input.value.env);
      }
    }
  }

  lemma LockedMove(w0: World, acts: seq<Act>, i: nat, w: World)
    requires i < |acts| && w == After(w0, acts, i)
    requires RunInv(w.s) && LockedFast(w.s) && DialogsBacked(w0, acts, i)
    ensures LockedFast(SaverMoves(w, acts[i])) || ReleasedAt(w0, acts, i)
  {
    hide RunInv, LockedFast, DialogsBacked, SaverMoves, ReadsOk, EarnedOkRead, After;
    OnlyReleaseUnlocks(w, acts[i]);
    if acts[i].ReadLine? && ReadsOk(w, acts[i], acts[i].window) {
      ReadOkIsEarned(w0, acts, i, w, acts[i].window);
    }
  }

  lemma {:induction false} UnlockIsEarnedFrom(w0: World, acts: seq<Act>, i: nat, j: nat)
    requires i <= j <= |acts| && w0.dialogs == map[]
    requires RunInv(w0.s) && LockedFast(After(w0, acts, i).s)
    ensures LockedFast(After(w0, acts, j).s) || ReleasedBetween(w0, acts, i, j)
    decreases j
  {
    hide RunInv, LockedFast, DialogsBacked, SaverMoves, DialogsMove, ReleasedAt;
    if i < j {
      UnlockIsEarnedFrom(w0, acts, i, j - 1);
      if LockedFast(After(w0, acts, j - 1).s) {
        EverySaverOk(w0, acts, j - 1);
        EveryDialogBacked(w0, acts, j - 1);
        LockedMove(w0, acts, j - 1, After(w0, acts, j - 1));
      }
    }
  }

  /** End to end: a locked screen with no deactivation under way stays locked until someone
      asks outright, or a window reads RESPONSE=OK from the dialog it is watching, and in a
      helper of that very dialog pam_authenticate had succeeded, or the dialog had failed to
      initialise locking. */
  lemma UnlockIsEarned(monitors: seq<MonitorId>, prefs: Prefs, now: nat, acts: seq<Act>, i: nat, j: nat)
    requires Distinct(monitors) && monitors != [] && now >= 1000 && i <= j <= |acts|
    requires LockedFast(After(Begin(monitors, prefs, now), acts, i).s)
    ensures var w0 := Begin(monitors, prefs, now);
            LockedFast(After(w0, acts, j).s) || ReleasedBetween(w0, acts, i, j)
  {
    hide RunInv, LockedFast, ReleasedBetween, After;
    BeginOk(monitors, prefs, now);
    UnlockIsEarnedFrom(Begin(monitors, prefs, now), acts, i, j);
  }

  // ----- Every token ---------------------------------------------------------------

  predicate Unlocked(m: Manager) {
    m.active && !m.lockActive
  }

  /** Before act `i`, window `x` has read an OK that its dialog had earned. */
  ghost predicate OkReadBefore(w0: World, acts: seq<Act>, i: nat, x: WindowId)
    requires i <= |acts|
  {
    exists k :: 0 <= k < i && EarnedOkRead(w0, acts, k, x)
  }

  /** Act `j` queued `t`, and rightly so: its window had read an OK that the dialog had
      earned, or the screen was showing but not locked at that moment. */
  ghost predicate QueuedRightlyAt(w0: World, acts: seq<Act>, j: nat, t: Token)
    requires j < |acts|
  {
    && After(w0, acts, j + 1).s.m.out.windowIdles == After(w0, acts, j).s.m.out.windowIdles + [t]
    && match t.cause
       case DialogSaidOk => OkReadBefore(w0, acts, j + 1, t.window)
       case WindowNotLocked => Unlocked(After(w0, acts, j).s.m)
  }

  ghost predicate Backed(w0: World, acts: seq<Act>, i: nat, t: Token)
    requires i <= |acts|
  {
    exists j :: 0 <= j < i && QueuedRightlyAt(w0, acts, j, t)
  }

  /** Remembered answers and queued tokens are backed. */
  ghost predicate TokensBacked(w0: World, acts: seq<Act>, i: nat)
    requires i <= |acts|
  {
    var m := After(w0, acts, i).s.m;
    && (forall x :: x in m.win && m.win[x].okResponse ==> OkReadBefore(w0, acts, i, x))
    && (forall t :: Pending(m, t) ==> Backed(w0, acts, i, t))
  }

  lemma OkReadStays(w0: World, acts: seq<Act>, i: nat, x: WindowId)
    requires i < |acts| && (OkReadBefore(w0, acts, i, x) || EarnedOkRead(w0, acts, i, x))
    ensures OkReadBefore(w0, acts, i + 1, x)
  {
    hide EarnedOkRead;
  }

  lemma BackedStays(w0: World, acts: seq<Act>, i: nat, t: Token)
    requires i < |acts| && (Backed(w0, acts, i, t) || QueuedRightlyAt(w0, acts, i, t))
    ensures Backed(w0, acts, i + 1, t)
  {
    hide QueuedRightlyAt;
  }

  /** A step of the saver: a new token is appended, for a window that reads OK, or read it
      before, or while the screen is not locked. */
  lemma SaverTokens(w: World, a: Act, input: Input, t: Token)
    requires SaverInput(w, a) == Some(input)
    requires SaverInv(w.s)
    ensures var r := Step(w.s, input.event, input.env);
            Pending(r.m, t) && !Pending(w.s.m, t) ==>
              && r.m.out.windowIdles == w.s.m.out.windowIdles + [t]
              && (if t.cause.WindowNotLocked? then Unlocked(w.s.m)
                  else ReadsOk(w, a, t.window) || (t.window in w.s.m.win && w.s.m.win[t.window].okResponse))
  {
    hide SaverInv, Step, SaverInput, ActivityExplained, ReadsOk;
    var r := Step(w.s, input.event, input.env);
    StepExplained(w.s, input.event, input.env);
    hide QueuesExplained;
    if Pending(r.m, t) && !Pending(w.s.m, t) {
      PendingStep(w.s.m, input.event, r.m, t);
      var q := r.m.out.windowIdles;
      assert q == q[..|q| - 1] + [t];
      if SaysOk(w.s.m, input.event, t.window) {
        OkIsRead(w, a, t.window);
      }
    }
  }

  lemma AnswerMoves(w0: World, acts: seq<Act>, i: nat, w: World, x: WindowId)
    requires i < |acts| && w == After(w0, acts, i)
    requires TokensBacked(w0, acts, i) && DialogsBacked(w0, acts, i)
    ensures var m := SaverMoves(w, acts[i]).m;
            x in m.win && m.win[x].okResponse ==> OkReadBefore(w0, acts, i + 1, x)
  {
    assert x in w.s.m.win && w.s.m.win[x].okResponse ==> OkReadBefore(w0, acts, i, x);
    hide Step, SaverInput, DialogsBacked, TokensBacked, After, EarnedOkRead, OkReadBefore, ReadsOk, SaysOk;
    var input := SaverInput(w, acts[i]);
    if input.Some? {
      StepAnswers(w.s, input.value.event, input.value.env);
      if SaysOk(w.s.m, input.value.event, x) {
        OkIsRead(w, acts[i], x);
        ReadOkIsEarned(w0, acts, i, w, x);
      }
    }
    if OkReadBefore(w0, acts, i, x) || EarnedOkRead(w0, acts, i, x) {
      OkReadStays(w0, acts, i, x);
    }
  }

  lemma NewToken(w0: World, acts: seq<Act>, i: nat, w: World, t: Token)
    requires i < |acts| && w == After(w0, acts, i)
    requires SaverInv(w.s) && TokensBacked(w0, acts, i) && DialogsBacked(w0, acts, i)
    ensures Pending(SaverMoves(w, acts[i]).m, t) && !Pending(w.s.m, t) ==> QueuedRightlyAt(w0, acts, i, t)
  {
    NextDialogs(w0, acts, i);
    var x := t.window;
    assert x in w.s.m.win && w.s.m.win[x].okResponse ==> OkReadBefore(w0, acts, i, x);
    hide Step, SaverInput, DialogsBacked, TokensBacked, After, EarnedOkRead, OkReadBefore, ReadsOk, Pending, SaverInv,
         Unlocked, DialogsMove;
    var input := SaverInput(w, acts[i]);
    if input.Some? {
      SaverTokens(w, acts[i], input.value, t);
      if ReadsOk(w, acts[i], x) {
        ReadOkIsEarned(w0, acts, i, w, x);
      }
    }
    if OkReadBefore(w0, acts, i, x) || EarnedOkRead(w0, acts, i, x) {
      OkReadStays(w0, acts, i, x);
    }
  }

  lemma TokensMove(w0: World, acts: seq<Act>, i: nat)
    requires i < |acts|
    requires TokensBacked(w0, acts, i) && DialogsBacked(w0, acts, i) && SaverInv(After(w0, acts, i).s)
    ensures TokensBacked(w0, acts, i + 1)
  {
    var w, m := After(w0, acts, i), After(w0, acts, i + 1).s.m;
    NextDialogs(w0, acts, i);
    hide SaverMoves, DialogsMove, DialogsBacked, After, Pending, SaverInv, Backed, OkReadBefore, QueuedRightlyAt;
    forall x | x in m.win && m.win[x].okResponse
      ensures OkReadBefore(w0, acts, i + 1, x)
    {
      AnswerMoves(w0, acts, i, w, x);
    }
    forall t | Pending(m, t)
      ensures Backed(w0, acts, i + 1, t)
    {
      NewToken(w0, acts, i, w, t);
      BackedStays(w0, acts, i, t);
    }
  }

  lemma {:induction false} EveryTokenBacked(w0: World, acts: seq<Act>, i: nat)
    requires i <= |acts| && w0.dialogs == map[] && TokensBacked(w0, acts, 0)
    requires RunInv(w0.s)
    ensures TokensBacked(w0, acts, i)
    decreases i
  {
    hide DialogsBacked, TokensBacked, SaverInv, After, AnswersPending, TokensIssued;
    if i > 0 {
      EveryTokenBacked(w0, acts, i - 1);
      EverySaverOk(w0, acts, i - 1);
      EveryDialogBacked(w0, acts, i - 1);
      TokensMove(w0, acts, i - 1);
    }
  }

  lemma BeginsAlone(monitors: seq<MonitorId>, prefs: Prefs, now: nat)
    ensures Begin(monitors, prefs, now).dialogs == map[]
  {
    hide Start;
  }

  lemma NothingPendingAtBegin(monitors: seq<MonitorId>, prefs: Prefs, now: nat, acts: seq<Act>)
    requires Distinct(monitors) && monitors != [] && now >= 1000
    ensures TokensBacked(Begin(monitors, prefs, now), acts, 0)
  {
    var s := Start(monitors, prefs, now);
    StartOk(monitors, prefs, now);
    NoWindowsAtRest(s);
    hide Start, SaverInv, Backed, OkReadBefore;
  }

  /** Which acts can make the saver inactive. */
  lemma WhatDeactivates(w: World, a: Act)
    requires SaverInv(w.s)
    ensures w.s.m.active && !SaverMoves(w, a).m.active ==>
              && a.Callback?
              && (|| a.event == SetActiveRequest(false)
                  || (a.event.ManagerDeactivatedIdle? && a.event.index < |w.s.m.out.managerIdles|))
  {
    hide Step, SaverInv, QueuesExplained;
    var input := SaverInput(w, a);
    if input.Some? {
      StepExplained(w.s, input.value.event, input.value.env);
    }
  }

  /** Deactivation end to end: it is an explicit request, or it uses up a token that some
      earlier act appended after its window had read an OK that the dialog had earned, or
      while the screen was showing but not locked. */
  lemma DeactivationIsEarned(monitors: seq<MonitorId>, prefs: Prefs, now: nat, acts: seq<Act>, n: nat)
    requires Distinct(monitors) && monitors != [] && now >= 1000 && n < |acts|
    requires var w0 := Begin(monitors, prefs, now);
             After(w0, acts, n).s.m.active && !After(w0, acts, n + 1).s.m.active
    ensures var w0 := Begin(monitors, prefs, now);
            var idles := After(w0, acts, n).s.m.out.managerIdles;
            && acts[n].Callback?
            && (|| acts[n].event == SetActiveRequest(false)
                || (&& acts[n].event.ManagerDeactivatedIdle? && acts[n].event.index < |idles|
                    && Backed(w0, acts, n, idles[acts[n].event.index])))
  {
    var w0 := Begin(monitors, prefs, now);
    var w := After(w0, acts, n);
    NextDialogs(w0, acts, n);
    hide Begin, After, SaverMoves, DialogsMove, SaverInv, Backed, AnswersPending, TokensIssued;
    BeginOk(monitors, prefs, now);
    NothingPendingAtBegin(monitors, prefs, now, acts);
    BeginsAlone(monitors, prefs, now);
    EveryTokenBacked(w0, acts, n);
    EverySaverOk(w0, acts, n);
    WhatDeactivates(w, acts[n]);
  }

  // ----- A correct password unlocks -------------------------------------------------

  /** The dialog of window `x` is up and watched, waits for an attempt, and all it has
      printed so far was read. */
  predicate Waits(w: World, x: WindowId) {
    && x in w.s.m.win && w.s.m.win[x].lockSource
    && x in w.dialogs && w.dialogs[x].d.running && w.dialogs[x].d.authIdle
    && w.dialogs[x].read == |w.dialogs[x].d.out|
  }

  /** PAM accepts, the dialog says so, the window reads it, and the two deferred callbacks
      run. */
  function Unlocking(w: World, x: WindowId, h: Helper, env: Env): seq<Act> {
    [Verify(x, h), InDialog(x, D.OkIdle), ReadLine(x, env),
     Callback(WindowDeactivatedIdle(|w.s.m.out.windowIdles|), env), Callback(ManagerDeactivatedIdle(0), env)]
  }

  lemma AfterFive(w: World, acts: seq<Act>)
    requires |acts| == 5
    ensures After(w, acts, 5) == Move(Move(Move(Move(Move(w, acts[0]), acts[1]), acts[2]), acts[3]), acts[4])
  {
    hide Move;
    assert After(w, acts, 1) == Move(w, acts[0]);
    assert After(w, acts, 2) == Move(After(w, acts, 1), acts[1]);
    assert After(w, acts, 3) == Move(After(w, acts, 2), acts[2]);
    assert After(w, acts, 4) == Move(After(w, acts, 3), acts[3]);
  }

  /** The dialog's part: the saver has not moved, and its window can read OK. */
  lemma DialogSaysOk(w: World, x: WindowId, h: Helper)
    requires Waits(w, x) && h.capacity > 0 && Conversation(h).d.Done? && Passed(h)
    ensures var r := Move(Move(w, Verify(x, h)), InDialog(x, D.OkIdle));
            r.s == w.s && x in r.dialogs && NextLine(r.dialogs[x]) == Some(DialogLine.ResponseOk)
  {
    ResultIsPams(h);
    hide Conversation;
  }

  lemma OkLineQueues(m: Manager, x: WindowId, env: Env, now: nat)
    requires x in m.win && m.win[x].lockSource
    requires Inv(m, now)
    ensures var r := LockCommandWatch(m, x, DialogLine.ResponseOk, env);
            && r.active == m.active && x in r.win
            && r.out.windowIdles == m.out.windowIdles + [Token(x, DialogSaidOk)]
  {
    hide Inv, LockCommandWatch;
    LockCommandWatchKeeps(m, x, DialogLine.ResponseOk, env, now);
  }

  lemma LineStep(s: Saver, x: WindowId, line: DialogLine, env: Env)
    ensures Step(s, DialogOutput(x, line), env) == s.(m := LockCommandWatch(s.m, x, line, env.(now := s.now)))
  {
  }

  lemma OkReadQueues(s: Saver, x: WindowId, env: Env)
    requires x in s.m.win && s.m.win[x].lockSource && s.m.active
    requires SaverInv(s)
    ensures var r := Step(s, DialogOutput(x, DialogLine.ResponseOk), env);
            && SaverInv(r) && r.m.active && x in r.m.win
            && r.m.out.windowIdles == s.m.out.windowIdles + [Token(x, DialogSaidOk)]
  {
    hide Inv, ListenerOk, LockCommandWatch, Step, QueuesExplained, ActivityExplained;
    LineStep(s, x, DialogLine.ResponseOk, env);
    OkLineQueues(s.m, x, env.(now := s.now), s.now);
    StepExplained(s, DialogOutput(x, DialogLine.ResponseOk), env);
  }

  lemma IdlesRun(s: Saver, k: nat, env: Env)
    requires k < |s.m.out.windowIdles| && s.m.out.windowIdles[k].window in s.m.win && s.m.active
    requires SaverInv(s)
    ensures !Step(Step(s, WindowDeactivatedIdle(k), env), ManagerDeactivatedIdle(0), env).m.active
  {
    hide Step, SaverInv, ActivityExplained, QueuesExplained;
    TokenMovesOn(s, k, env);
    StepExplained(s, WindowDeactivatedIdle(k), env);
    PendingTokenUnlocks(Step(s, WindowDeactivatedIdle(k), env), env);
  }

  /** Whatever the state: if PAM accepts the user, five acts later the screen is unlocked. */
  lemma CorrectPasswordUnlocks(w: World, x: WindowId, h: Helper, env: Env)
    requires Waits(w, x) && w.s.m.active
    requires h.capacity > 0 && Conversation(h).d.Done? && Passed(h)
    requires SaverInv(w.s)
    ensures !After(w, Unlocking(w, x, h, env), 5).s.m.active
  {
    var acts := Unlocking(w, x, h, env);
    hide Step, SaverInv, Conversation, After, DialogsMove, Passed;
    var w2 := Move(Move(w, acts[0]), acts[1]);
    var s3 := Step(w.s, DialogOutput(x, DialogLine.ResponseOk), env);
    AfterFive(w, acts);
    DialogSaysOk(w, x, h);
    assert Move(w2, acts[2]).s == s3;
    hide NextLine;
    OkReadQueues(w.s, x, env);
    IdlesRun(s3, |w.s.m.out.windowIdles|, env);
  }
}
