/** The in-process variant of authentication: PAM runs in its own thread and hands every
    message to the GUI thread through a mutex, a condition and an idle callback. */
module PamHandshake {
  import opened Options

  // ----- The two threads -------------------------------------------------------

  datatype Pam =
    | Asking(i: nat)                   // about to hand over message `i`
    | Locked(i: nat)                   // holds the mutex
    | Queued(i: nat)                   // has queued the callback, still holds the mutex
    | Waiting(i: nat)                  // in g_cond_wait, mutex released
    | Woken(i: nat)                    // woken, needs the mutex to return
    | Back(i: nat)                     // holds the mutex again
    | Finished(ok: bool, i: nat)

  datatype Gui =
    | Idle
    | Blocked(i: nat)                  // the callback wants the mutex
    | Inside(i: nat)                   // holds the mutex, asks the user
    | Handled(i: nat)                  // the answer is recorded
    | Signalled(i: nat)                // the condition is signalled

  datatype Owner = Nobody | PamThread | GuiThread

  datatype Entry = Entry(message: nat, answer: bool)

  datatype System = System(
    n: nat,                            // number of messages in this conversation
    pam: Pam,
    gui: Gui,
    owner: Owner,                      // of the mutex
    queue: seq<nat>,                   // idle callbacks that have not run
    interrupt: seq<bool>,              // should_interrupt_stack, one per message
    log: seq<Entry>,                   // history: what the callback returned
    spurious: bool)                    // history: the wait ended without a signal

  datatype Action = PamMoves | GuiMoves(answer: bool) | WakesSpuriously

  predicate PamEnabled(s: System) {
    match s.pam
    case Asking(i) => i >= s.n || s.owner == Nobody
    case Woken(_) => s.owner == Nobody
    case Waiting(_) => false
    case Finished(_, _) => false
    case _ => true
  }

  function PamStep(s: System): System {
    match s.pam
    case Asking(i) =>
      if i >= |s.interrupt| then s.(pam := Finished(true, i))
      else s.(pam := Locked(i), owner := PamThread, interrupt := s.interrupt[i := true])
    case Locked(i) => s.(pam := Queued(i), queue := s.queue + [i])
    case Queued(i) => s.(pam := Waiting(i), owner := Nobody)
    case Woken(i) => s.(pam := Back(i), owner := PamThread)
    case Back(i) =>
      s.(owner := Nobody,
         pam := if i < |s.interrupt| && !s.interrupt[i] then Asking(i + 1) else Finished(false, i))
    case _ => s
  }

  predicate GuiEnabled(s: System) {
    match s.gui
    case Idle => s.queue != []
    case Blocked(_) => s.owner == Nobody
    case _ => true
  }

  function GuiStep(s: System, answer: bool): System {
    match s.gui
    case Idle => if s.queue == [] then s else s.(gui := Blocked(s.queue[0]), queue := s.queue[1..])
    case Blocked(i) => s.(gui := Inside(i), owner := GuiThread)
    case Inside(i) =>
      s.(gui := Handled(i), log := s.log + [Entry(i, answer)],
         interrupt := if i < |s.interrupt| then s.interrupt[i := !answer] else s.interrupt)
    case Handled(i) => s.(gui := Signalled(i), pam := if s.pam.Waiting? then Woken(s.pam.i) else s.pam)
    case Signalled(_) => s.(gui := Idle, owner := Nobody)
  }

  function Step(s: System, a: Action): System {
    match a
    case PamMoves => if PamEnabled(s) then PamStep(s) else s
    case GuiMoves(answer) => if GuiEnabled(s) then GuiStep(s, answer) else s
    case WakesSpuriously => if s.pam.Waiting? then s.(pam := Woken(s.pam.i), spurious := true) else s
  }

  function Initial(n: nat): System {
    System(n, Asking(0), Idle, Nobody, [], seq(n, _ => true), [], false)
  }

  function Run(s: System, actions: seq<Action>): System {
    if actions == [] then s
    else Step(Run(s, actions[..|actions| - 1]), actions[|actions| - 1])
  }

  // ----- The invariant ---------------------------------------------------------

  /** The first `k` callbacks ran in order, and the user went along with each. */
  predicate AllTrue(log: seq<Entry>, k: nat) {
    |log| >= k && forall j :: 0 <= j < k ==> log[j] == Entry(j, true)
  }

  /** Message `i` has been handed over and its callback has not answered. */
  predicate Pending(s: System, i: nat) {
    && i < |s.interrupt| == s.n && s.interrupt[i]
    && |s.log| == i && AllTrue(s.log, i)
    && ((s.queue == [i] && s.gui == Idle) || (s.queue == [] && (s.gui == Blocked(i) || s.gui == Inside(i))))
  }

  /** The callback of message `i` has answered. */
  predicate Answered(s: System, i: nat) {
    && i < |s.interrupt| == s.n
    && |s.log| == i + 1 && AllTrue(s.log, i)
    && s.log[i] == Entry(i, !s.interrupt[i])
    && s.queue == [] && (s.gui == Idle || s.gui == Handled(i) || s.gui == Signalled(i))
  }

  predicate Quiet(s: System, i: nat) {
    |s.interrupt| == s.n && |s.log| == i <= s.n && AllTrue(s.log, i) && s.queue == [] && s.gui == Idle
  }

  predicate MutexOk(s: System) {
    && (s.owner == PamThread <==> s.pam.Locked? || s.pam.Queued? || s.pam.Back?)
    && (s.owner == GuiThread <==> s.gui.Inside? || s.gui.Handled? || s.gui.Signalled?)
  }

  predicate Inv(s: System) {
    && MutexOk(s)
    && match s.pam
       case Asking(i) => Quiet(s, i)
       case Locked(i) => i < s.n && Quiet(s, i) && s.interrupt[i]
       case Queued(i) => Pending(s, i)
       case Waiting(i) => Pending(s, i) || (Answered(s, i) && s.gui.Handled?)
       case Woken(i) => (Pending(s, i) && s.spurious) || (Answered(s, i) && (s.gui.Handled? ==> s.spurious))
       case Back(i) => (Pending(s, i) && s.spurious) || (Answered(s, i) && s.gui == Idle)
       case Finished(ok, i) =>
         if ok then Quiet(s, s.n)
         else (Pending(s, i) && s.spurious) || (Answered(s, i) && (s.log[i].answer || s.gui != Idle ==> s.spurious))
  }

  lemma StepKeeps(s: System, a: Action)
    requires Inv(s)
    ensures Inv(Step(s, a)) && Step(s, a).n == s.n
  {
    match a
    case PamMoves => if PamEnabled(s) { PamKeeps(s); }
    case GuiMoves(answer) => if GuiEnabled(s) { GuiKeeps(s, answer); }
    case WakesSpuriously =>
  }

  lemma PamKeeps(s: System)
    requires Inv(s) && PamEnabled(s)
    ensures Inv(PamStep(s)) && PamStep(s).n == s.n
  {
  }

  lemma GuiKeeps(s: System, answer: bool)
    requires Inv(s) && GuiEnabled(s)
    ensures Inv(GuiStep(s, answer)) && GuiStep(s, answer).n == s.n
  {
  }

  lemma {:induction false} RunKeeps(n: nat, actions: seq<Action>)
    ensures Inv(Run(Initial(n), actions)) && Run(Initial(n), actions).n == n
  {
    hide Inv;
    if actions == [] {
      InitialOk(n);
    } else {
      RunKeeps(n, actions[..|actions| - 1]);
      StepKeeps(Run(Initial(n), actions[..|actions| - 1]), actions[|actions| - 1]);
    }
  }

  lemma InitialOk(n: nat)
    ensures Inv(Initial(n))
  {
  }

  // ----- What the handshake promises -------------------------------------------

  /** The conversation succeeds only if the user went along with every message, each asked
      once and in order; and the thread is past message `i` only after its callback
      returned TRUE.  This holds even if waits end without a signal. */
  lemma SuccessMeansAllAnswered(n: nat, actions: seq<Action>)
    ensures var s := Run(Initial(n), actions);
            && (s.pam.Finished? && s.pam.ok ==> |s.log| == n && AllTrue(s.log, n))
            && AllTrue(s.log, if s.pam.Finished? && s.pam.ok then n else s.pam.i)
            && |s.log| <= n
  {
    RunKeeps(n, actions);
    hide Run, MutexOk;
  }

  /** Without spurious wake-ups the thread also fails only on a FALSE answer. */
  lemma FailureMeansRefusal(n: nat, actions: seq<Action>)
    ensures var s := Run(Initial(n), actions);
            s.pam.Finished? && !s.pam.ok && !s.spurious ==>
              |s.log| == s.pam.i + 1 && s.log[s.pam.i] == Entry(s.pam.i, false)
  {
    RunKeeps(n, actions);
    hide Run, MutexOk;
  }

  /** The wake-up cannot be missed: when the callback signals, the thread is waiting for
      that very message; and a waiting thread always has its callback on the way. */
  lemma NoMissedWakeup(n: nat, actions: seq<Action>)
    ensures var s := Run(Initial(n), actions);
            && (s.gui.Handled? && !s.spurious ==> s.pam == Waiting(s.gui.i))
            && (s.pam.Waiting? ==> s.queue == [s.pam.i] || (!s.gui.Idle? && s.gui.i == s.pam.i && !s.gui.Signalled?))
  {
    RunKeeps(n, actions);
    hide Run;
  }

  /** Until the conversation is over, one of the threads can move. */
  lemma NeverStuck(n: nat, actions: seq<Action>)
    ensures var s := Run(Initial(n), actions);
            s.pam.Finished? || PamEnabled(s) || GuiEnabled(s)
  {
    RunKeeps(n, actions);
    hide Run;
  }

  /** A callback is outstanding although the thread, and with it the data on its stack,
      has gone on. */
  predicate CallbackOutlivesCaller(s: System) {
    (s.queue != [] || s.gui.Blocked? || s.gui.Inside?) && (s.pam.Finished? || s.pam.Asking?)
  }

  /** That needs a spurious wake-up, which the single `g_cond_wait`, not being in a loop,
      does not exclude. */
  lemma CallbackInTime(n: nat, actions: seq<Action>)
    ensures var s := Run(Initial(n), actions);
            CallbackOutlivesCaller(s) ==> s.spurious
  {
    RunKeeps(n, actions);
    hide Run;
  }

  /** The callback of message `i` has not answered, and its caller has gone on. */
  predicate LeftBehind(s: System, i: nat) {
    (i in s.queue || s.gui == Blocked(i) || s.gui == Inside(i)) && (s.pam.Finished? || s.pam.Asking?)
  }

  /** The callback of message `i` has answered, or holds the mutex while its caller waits. */
  predicate Committed(s: System, i: nat) {
    |s.log| > i || (s.gui == Inside(i) && (s.pam == Waiting(i) || s.pam == Woken(i)))
  }

  lemma CommittedStays(s: System, a: Action, i: nat)
    requires Inv(s) && Committed(s, i)
    ensures Committed(Step(s, a), i) && !LeftBehind(s, i)
  {
  }

  lemma {:induction false} CommittedForGood(s: System, more: seq<Action>, i: nat)
    requires Inv(s) && Committed(s, i)
    ensures Inv(Run(s, more)) && Committed(Run(s, more), i) && !LeftBehind(Run(s, more), i)
  {
    hide Inv, Committed, LeftBehind, Step;
    if more != [] {
      var r := Run(s, more[..|more| - 1]);
      CommittedForGood(s, more[..|more| - 1], i);
      StepKeeps(r, more[|more| - 1]);
      CommittedStays(r, more[|more| - 1], i);
    }
    CommittedStays(Run(s, more), PamMoves, i);
  }

  const WakeAndGo: seq<Action> := [WakesSpuriously, PamMoves, PamMoves]

  lemma WakingLeavesBehind(s: System)
    requires Inv(s) && s.pam.Waiting? && (s.queue != [] || s.gui.Blocked?)
    ensures LeftBehind(Run(s, WakeAndGo), s.pam.i)
  {
    var a := WakeAndGo;
    assert a[..2][..1] == a[..1] && a[..1][..0] == [];
    assert Run(s, a[..1]) == Step(s, WakesSpuriously);
    assert Run(s, a[..2]) == Step(Step(s, WakesSpuriously), PamMoves);
  }

  /** Some continuation leaves the callback of the waiting thread behind. */
  ghost predicate MayBeLeftBehind(s: System)
    requires s.pam.Waiting?
  {
    exists more :: LeftBehind(Run(s, more), s.pam.i)
  }

  lemma LeavesBehind(s: System, more: seq<Action>)
    requires s.pam.Waiting? && LeftBehind(Run(s, more), s.pam.i)
    ensures MayBeLeftBehind(s)
  {
  }

  /** In every run: a waiting thread can still be made to leave its callback behind if and
      only if the callback has not taken the mutex. */
  lemma LeftBehindIff(n: nat, actions: seq<Action>)
    requires Run(Initial(n), actions).pam.Waiting?
    ensures var s := Run(Initial(n), actions);
            MayBeLeftBehind(s) <==> s.queue != [] || s.gui.Blocked?
  {
    var s := Run(Initial(n), actions);
    RunKeeps(n, actions);
    if s.queue != [] || s.gui.Blocked? {
      WakingLeavesBehind(s);
      LeavesBehind(s, WakeAndGo);
    } else {
      assert Committed(s, s.pam.i);
      forall more ensures !LeftBehind(Run(s, more), s.pam.i) {
        CommittedForGood(s, more, s.pam.i);
      }
    }
  }

  /** The shortest such run: the thread hands over its first message, waits and wakes. */
  lemma SpuriousWakeupLeavesCallbackBehind(n: nat)
    requires n > 0
    ensures LeftBehind(Run(Run(Initial(n), [PamMoves, PamMoves, PamMoves]), WakeAndGo), 0)
  {
    var a := [PamMoves, PamMoves, PamMoves];
    assert a[..2][..1] == a[..1] && a[..1][..0] == [];
    assert Run(Initial(n), a[..1]) == Step(Initial(n), PamMoves);
    assert Run(Initial(n), a[..2]) == Step(Step(Initial(n), PamMoves), PamMoves);
    assert Run(Initial(n), a).pam == Waiting(0) && Run(Initial(n), a).queue == [0];
    RunKeeps(n, a);
    hide Run, Inv;
    WakingLeavesBehind(Run(Initial(n), a));
  }

  // ----- The conversation function ---------------------------------------------

  /** How the GUI reacts to one message. */
  datatype Reaction = Reaction(accepted: bool, text: Option<string>)

  /** PAM's conversation function: all messages answered in order, or no replies.  The
      first refusal ends the conversation. */
  method PamConversation(hasCallback: bool, reactions: seq<Reaction>)
    returns (ok: bool, resp: Option<seq<Option<string>>>, asked: nat)
    ensures ok <==> !hasCallback || forall i :: 0 <= i < |reactions| ==> reactions[i].accepted
    ensures ok ==> asked == |reactions| && resp.Some? && |resp.value| == |reactions|
                   && forall i :: 0 <= i < |reactions| ==>
                        resp.value[i] == if hasCallback then reactions[i].text else None
    ensures !ok ==> resp == None && 0 < asked <= |reactions| && !reactions[asked - 1].accepted
                    && forall i :: 0 <= i < asked - 1 ==> reactions[i].accepted
  {
    var reply := new Option<string>[|reactions|](_ => None);
    ok := true;
    asked := 0;
    while asked < |reactions| && ok
      invariant asked <= |reactions|
      invariant ok && hasCallback ==> forall i :: 0 <= i < asked ==> reactions[i].accepted
      invariant ok ==> forall i :: 0 <= i < |reactions| ==>
          reply[i] == if hasCallback && i < asked then reactions[i].text else None
      invariant !ok ==> hasCallback && 0 < asked && !reactions[asked - 1].accepted
                        && forall i :: 0 <= i < asked - 1 ==> reactions[i].accepted
    {
      if hasCallback {
        if reactions[asked].accepted {
          reply[asked] := reactions[asked].text;
        } else {
          ok := false;
        }
      }
      asked := asked + 1;
    }
    resp := if ok then Some(reply[..]) else None;
  }
}
