/** The unlock dialog's process: it initialises locking, verifies the user up to
    MAX_FAILURES times, and reports on its standard output. */
module DialogProcess {

  const MAX_FAILURES: nat := 5

  datatype Line = NoticeAuthFailed | ResponseOk | ResponseCancel | RequestQuit

  datatype Dialog = Dialog(
    running: bool,
    authIdle: bool,                    // auth_check_idle is attached
    okIdle: bool,                      // quit_response_ok is attached
    requestIdle: bool,                 // response_request_quit is attached
    quitTimer: bool,
    failures: nat,                     // loop_counter
    out: seq<Line>,
    attempts: nat,                     // history: calls of the verification
    verified: bool,                    // history: one of them succeeded
    initFailed: bool)                  // history: locking could not be initialised

  datatype Event = AuthCheck(verified: bool) | OkIdle | RequestIdle | Cancel | QuitTimer

  function Start(privileged: bool, arguments: bool, locking: bool): Dialog {
    var d := Dialog(false, false, false, false, false, 0, [], 0, false, false);
    if !privileged then d.(out := [ResponseOk], initFailed := true)
    else if !arguments then d
    else if !locking then d.(out := [ResponseOk], initFailed := true)
    else d.(running := true, authIdle := true)
  }

  function CheckAuth(d: Dialog, verified: bool): Dialog {
    if verified then d.(attempts := d.attempts + 1, verified := true, authIdle := false, okIdle := true)
    else
      var d1 := d.(attempts := d.attempts + 1, out := d.out + [NoticeAuthFailed], failures := d.failures + 1);
      if d1.failures < MAX_FAILURES then d1 else d1.(authIdle := false, requestIdle := true, quitTimer := true)
  }

  function Step(d: Dialog, e: Event): Dialog {
    if !d.running then d
    else
      match e
      case AuthCheck(verified) => if d.authIdle then CheckAuth(d, verified) else d
      case OkIdle => if d.okIdle then d.(okIdle := false, out := d.out + [ResponseOk], running := false) else d
      case RequestIdle => if d.requestIdle then d.(requestIdle := false, out := d.out + [RequestQuit]) else d
      case Cancel => d.(out := d.out + [ResponseCancel], running := false)
      case QuitTimer => if d.quitTimer then d.(quitTimer := false, running := false) else d
  }

  function Run(d: Dialog, events: seq<Event>): Dialog {
    if events == [] then d else Step(Run(d, events[..|events| - 1]), events[|events| - 1])
  }

  function Count(out: seq<Line>, l: Line): nat {
    if out == [] then 0 else Count(out[..|out| - 1], l) + if out[|out| - 1] == l then 1 else 0
  }

  lemma CountOneMore(out: seq<Line>, l: Line, m: Line)
    ensures Count(out + [l], m) == Count(out, m) + if l == m then 1 else 0
  {
    assert (out + [l])[..|out|] == out;
  }

  predicate Inv(d: Dialog) {
    && Count(d.out, NoticeAuthFailed) == d.failures <= MAX_FAILURES
    && Count(d.out, ResponseOk) <= (if (d.verified && !d.okIdle) || d.initFailed then 1 else 0)
    && Count(d.out, RequestQuit) <= (if d.failures == MAX_FAILURES && !d.requestIdle then 1 else 0)
    && d.attempts == d.failures + (if d.verified then 1 else 0)
    && (d.running && d.authIdle ==> !d.verified && d.failures < MAX_FAILURES)
    && (d.okIdle ==> d.verified && !d.initFailed && Count(d.out, ResponseOk) == 0)
    && (d.requestIdle ==> d.failures == MAX_FAILURES)
    && (d.verified ==> d.failures < MAX_FAILURES)
    && (d.initFailed ==> !d.running)
  }

  lemma StepKeeps(d: Dialog, e: Event)
    requires Inv(d)
    ensures Inv(Step(d, e))
  {
    var line := match e
                case AuthCheck(_) => NoticeAuthFailed
                case OkIdle => ResponseOk
                case RequestIdle => RequestQuit
                case Cancel => ResponseCancel
                case QuitTimer => ResponseCancel;
    CountOneMore(d.out, line, NoticeAuthFailed);
    CountOneMore(d.out, line, ResponseOk);
    CountOneMore(d.out, line, RequestQuit);
    hide Count;
  }

  lemma StartOk(privileged: bool, arguments: bool, locking: bool)
    ensures Inv(Start(privileged, arguments, locking))
  {
  }

  lemma {:induction false} RunKeeps(d: Dialog, events: seq<Event>)
    requires Inv(d)
    ensures Inv(Run(d, events)) && Run(d, events).initFailed == d.initFailed
  {
    if events != [] {
      hide Inv;
      RunKeeps(d, events[..|events| - 1]);
      StepKeeps(Run(d, events[..|events| - 1]), events[|events| - 1]);
    }
  }

  /** RESPONSE=OK is printed at most once, and only after verification succeeded or locking
      could not be initialised; the user gets at most MAX_FAILURES attempts, each failure
      is announced, and the process asks to be ended only after the last one. */
  lemma OkIsEarned(privileged: bool, arguments: bool, locking: bool, events: seq<Event>)
    ensures var d := Run(Start(privileged, arguments, locking), events);
            && Count(d.out, ResponseOk) <= 1
            && (ResponseOk in d.out ==> d.verified || !privileged || !locking)
            && Count(d.out, NoticeAuthFailed) == d.failures
            && d.attempts <= MAX_FAILURES
            && (RequestQuit in d.out ==> d.failures == MAX_FAILURES && !d.verified)
  {
    var d := Run(Start(privileged, arguments, locking), events);
    StartOk(privileged, arguments, locking);
    RunKeeps(Start(privileged, arguments, locking), events);
    hide Run, Count;
    Counted(d.out, ResponseOk);
    Counted(d.out, RequestQuit);
  }

  lemma {:induction false} Counted(out: seq<Line>, l: Line)
    ensures l in out <==> Count(out, l) > 0
  {
    if out != [] {
      Counted(out[..|out| - 1], l);
      assert out == out[..|out| - 1] + [out[|out| - 1]];
    }
  }

  lemma {:induction false} VerifiedMeans(d: Dialog, events: seq<Event>)
    requires Run(d, events).verified && !d.verified
    ensures AuthCheck(true) in events
  {
    if events != [] {
      var k := |events| - 1;
      if Run(d, events[..k]).verified {
        VerifiedMeans(d, events[..k]);
      }
      assert events[k] in events;
    }
  }

  lemma RunOn(d: Dialog, events: seq<Event>, i: nat)
    requires i < |events|
    ensures Run(d, events[..i + 1]) == Step(Run(d, events[..i]), events[i])
  {
    var p := events[..i + 1];
    assert p[..i] == events[..i] && p[i] == events[i];
  }

  // ----- How often the user may try ----------------------------------------------

  function Failures(n: nat): seq<Event> {
    seq(n, _ => AuthCheck(false))
  }

  function Notices(n: nat): seq<Line> {
    seq(n, _ => NoticeAuthFailed)
  }

  lemma RunSnoc(d: Dialog, events: seq<Event>, e: Event)
    ensures Run(d, events + [e]) == Step(Run(d, events), e)
  {
    assert (events + [e])[..|events|] == events;
  }

  /** Each failure but the last is announced and leaves the dialog waiting for another
      attempt. */
  lemma {:induction false} StillWaiting(n: nat)
    requires n < 5
    ensures var d := Run(Start(true, true, true), Failures(n));
            && d.running && d.authIdle && !d.okIdle && !d.requestIdle && !d.quitTimer
            && d.failures == n && d.out == Notices(n)
  {
    if n > 0 {
      StillWaiting(n - 1);
      assert Failures(n) == Failures(n - 1) + [AuthCheck(false)];
      assert Notices(n) == Notices(n - 1) + [NoticeAuthFailed];
      RunSnoc(Start(true, true, true), Failures(n - 1), AuthCheck(false));
      hide Run;
    }
  }

  /** After up to four failures a user who is then verified gets RESPONSE=OK. */
  lemma VerifiedInTheEnd(n: nat)
    requires n < 5
    ensures var d := Run(Start(true, true, true), Failures(n) + [AuthCheck(true), OkIdle]);
            d.out == Notices(n) + [ResponseOk] && !d.running
  {
    var d, f := Start(true, true, true), Failures(n);
    StillWaiting(n);
    RunSnoc(d, f, AuthCheck(true));
    RunSnoc(d, f + [AuthCheck(true)], OkIdle);
    assert f + [AuthCheck(true)] + [OkIdle] == f + [AuthCheck(true), OkIdle];
    hide Run, Start;
  }

  /** After five the dialog takes no attempt any more: it asks to be ended, and ends. */
  lemma FiveFailures(verified: bool)
    ensures var d := Run(Start(true, true, true), Failures(5));
            && !d.authIdle && Step(d, AuthCheck(verified)) == d
            && Step(Step(d, RequestIdle), QuitTimer).out == Notices(5) + [RequestQuit]
            && !Step(Step(d, RequestIdle), QuitTimer).running
  {
    StillWaiting(4);
    assert Failures(5) == Failures(4) + [AuthCheck(false)];
    assert Notices(5) == Notices(4) + [NoticeAuthFailed];
    RunSnoc(Start(true, true, true), Failures(4), AuthCheck(false));
    hide Run, Start;
  }

  // ----- The process -----------------------------------------------------------

  class UnlockDialog {
    var running: bool
    var authIdle: bool
    var okIdle: bool
    var requestIdle: bool
    var quitTimer: bool
    var loopCounter: nat
    var out: seq<Line>
    var attempts: nat
    var verified: bool
    var initFailed: bool

    /** Up to the point where the main loop is entered, or the process exits. */
    constructor (privileged: bool, arguments: bool, locking: bool)
      ensures View() == Start(privileged, arguments, locking)
    {
      running, authIdle, okIdle, requestIdle, quitTimer := false, false, false, false, false;
      loopCounter, out, attempts, verified, initFailed := 0, [], 0, false, false;
      new;
      if !privileged {
        out := out + [ResponseOk];
        initFailed := true;
      } else if arguments {
        if !locking {
          out := out + [ResponseOk];
          initFailed := true;
        } else {
          running, authIdle := true, true;
        }
      }
    }

    function View(): Dialog
      reads this
    {
      Dialog(running, authIdle, okIdle, requestIdle, quitTimer, loopCounter, out, attempts, verified, initFailed)
    }

    method AuthCheckIdle(res: bool)
      requires running && authIdle
      modifies this
      ensures View() == Step(old(View()), AuthCheck(res))
    {
      attempts := attempts + 1;
      var again := true;
      if res {
        verified := true;
        again := false;
        okIdle := true;
      } else {
        out := out + [NoticeAuthFailed];
        loopCounter := loopCounter + 1;
        if loopCounter >= MAX_FAILURES {
          again := false;
          requestIdle := true;
          quitTimer := true;
        }
      }
      authIdle := again;
    }

    method QuitResponseOk()
      requires running && okIdle
      modifies this
      ensures View() == Step(old(View()), OkIdle)
    {
      out := out + [ResponseOk];
      running, okIdle := false, false;
    }

    method ResponseRequestQuit()
      requires running && requestIdle
      modifies this
      ensures View() == Step(old(View()), RequestIdle)
    {
      out := out + [RequestQuit];
      requestIdle := false;
    }

    method ResponseCallback(cancelled: bool)
      requires running
      modifies this
      ensures View() == if cancelled then Step(old(View()), Cancel) else old(View())
    {
      if cancelled {
        out := out + [ResponseCancel];
        running := false;
      }
    }

    method QuitTimeout()
      requires running && quitTimer
      modifies this
      ensures View() == Step(old(View()), QuitTimer)
    {
      running, quitTimer := false, false;
    }

    /** The main loop dispatches a callback if it is attached. */
    method Dispatch(e: Event)
      modifies this
      ensures View() == Step(old(View()), e)
    {
      if !running {
        return;
      }
      match e {
        case AuthCheck(res) =>
          if authIdle {
            AuthCheckIdle(res);
          }
        case OkIdle =>
          if okIdle {
            QuitResponseOk();
          }
        case RequestIdle =>
          if requestIdle {
            ResponseRequestQuit();
          }
        case Cancel => ResponseCallback(true);
        case QuitTimer =>
          if quitTimer {
            QuitTimeout();
          }
      }
    }
  }

  /** The whole process: what it prints, whatever happens to it. */
  method DialogMain(privileged: bool, arguments: bool, locking: bool, events: seq<Event>) returns (out: seq<Line>)
    ensures Count(out, ResponseOk) <= 1
    ensures ResponseOk in out ==> AuthCheck(true) in events || !privileged || !locking
    ensures Count(out, NoticeAuthFailed) <= MAX_FAILURES
    ensures RequestQuit in out ==> Count(out, NoticeAuthFailed) == MAX_FAILURES
  {
    var dialog := new UnlockDialog(privileged, arguments, locking);
    ghost var d := dialog.View();
    assert events[..0] == [];
    for i := 0 to |events|
      invariant dialog.View() == Run(d, events[..i])
    {
      RunOn(d, events, i);
      dialog.Dispatch(events[i]);
    }
    assert events[..|events|] == events;
    StartOk(privileged, arguments, locking);
    RunKeeps(d, events);
    OkIsEarned(privileged, arguments, locking, events);
    if Run(d, events).verified {
      VerifiedMeans(d, events);
    }
    out := dialog.out;
  }
}
