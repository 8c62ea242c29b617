/** Dialog and helper as two processes on two pipes.  Every interleaving and every
    chunking of reads and writes is a run; pipes may be as small as one byte. */
module LockStep {
  import opened Framing
  import opened HelperLoops

  // ----- The two processes -----------------------------------------------------

  datatype Dialog =
    | Polling                          // about to call waitpid
    | Reading(got: seq<byte>)          // inside read_prompt
    | Asking(prompt: Prompt)           // the user answers
    | Replying(left: seq<byte>)        // inside write_msg
    | Done(result: bool)

  datatype Helper =
    | Thinking                         // inside PAM
    | Sending(left: seq<byte>)         // inside write_prompt
    | Awaiting(got: seq<byte>)         // inside read_msg
    | Exited(passed: bool)

  datatype System = System(
    d: Dialog,
    h: Helper,
    todo: seq<Prompt>,                 // the rest of the current conversation call
    up: seq<byte>,                     // pipe from helper to dialog
    down: seq<byte>,                   // pipe from dialog to helper
    capacity: nat,
    asked: seq<Prompt>,                // history: what PAM asked
    seen: seq<Prompt>,                 // history: what the user was shown
    given: seq<Text>,                  // history: what the user answered
    heard: seq<Text>)                  // history: what PAM was told

  datatype Action =
    | Poll
    | DialogRead(count: nat)
    | DialogEof
    | Answer(text: Text)
    | DialogWrite(count: nat)
    | Ask(prompts: seq<Prompt>)        // PAM calls the conversation function
    | HelperWrite(count: nat)
    | HelperRead(count: nat)
    | Finish(passed: bool)             // pam_authenticate returned

  /** What PAM may ask: the four message styles, texts that fit the buffer. */
  predicate Proper(p: Prompt) {
    0 <= p.style <= 3 && |p.text| < MAXLEN
  }

  /** How many bytes the current read call of read_msg asks for; zero once the message
      is complete or its length is refused. */
  function MsgNeeds(got: seq<byte>): nat {
    if |got| < SIZE_LEN then SIZE_LEN - |got|
    else
      var n := Number(got[..SIZE_LEN]);
      if n >= MAXLEN || SIZE_LEN + n <= |got| then 0 else SIZE_LEN + n - |got|
  }

  function PromptNeeds(got: seq<byte>): nat {
    if |got| < TYPE_LEN then TYPE_LEN - |got| else MsgNeeds(got[TYPE_LEN..])
  }

  predicate Enabled(s: System, a: Action) {
    match a
    case Poll => s.d.Polling?
    case DialogRead(k) => s.d.Reading? && 1 <= k <= |s.up| && k <= PromptNeeds(s.d.got)
    case DialogEof => s.d.Reading? && s.up == [] && s.h.Exited?
    case Answer(text) => s.d.Asking? && |text| < MAXLEN
    case DialogWrite(k) => s.d.Replying? && 1 <= k <= |s.d.left| && |s.down| + k <= s.capacity
    case Ask(ps) => s.h.Thinking? && forall i :: 0 <= i < |ps| ==> Proper(ps[i])
    case HelperWrite(k) => s.h.Sending? && 1 <= k <= |s.h.left| && |s.up| + k <= s.capacity
    case HelperRead(k) => s.h.Awaiting? && 1 <= k <= |s.down| && k <= MsgNeeds(s.h.got)
    case Finish(_) => s.h.Thinking?
  }

  /** read_prompt returned. */
  function PromptArrived(s: System, got: seq<byte>): System {
    var r := ParsePrompt(got, MAXLEN, 0);
    if r.code == 0 then s.(d := Polling)
    else if r.code < 0 then s.(d := Done(false))
    else
      var p := Prompt(r.code, r.payload);
      s.(d := Asking(p), seen := s.seen + [p])
  }

  /** The helper goes on with the next message of the call, or returns to PAM. */
  function NextMessage(s: System): System {
    if s.todo == [] || !Proper(s.todo[0]) then s.(h := Thinking, todo := [])
    else s.(h := Sending(PromptFrame(s.todo[0])), todo := s.todo[1..], asked := s.asked + [s.todo[0]])
  }

  /** read_msg returned. */
  function ReplyArrived(s: System, got: seq<byte>): System {
    var r := ParseMsg(got, MAXLEN, 0);
    if r.code < 0 then s.(h := Thinking, todo := [])
    else NextMessage(s.(heard := s.heard + [r.payload]))
  }

  function Step(s: System, a: Action): System {
    if !Enabled(s, a) then s
    else
      match a
      case Poll => s.(d := if s.h.Exited? then Done(s.h.passed) else Reading([]))
      case DialogRead(k) =>
        var got := s.d.got + s.up[..k];
        var s1 := s.(up := s.up[k..], d := Reading(got));
        if PromptNeeds(got) == 0 then PromptArrived(s1, got) else s1
      case DialogEof => s.(d := if s.d.got == [] then Polling else Done(false))
      case Answer(text) => s.(d := Replying(MsgFrame(text)), given := s.given + [text])
      case DialogWrite(k) =>
        s.(down := s.down + s.d.left[..k],
           d := if k == |s.d.left| then Polling else Replying(s.d.left[k..]))
      case Ask(ps) => NextMessage(s.(todo := ps))
      case HelperWrite(k) =>
        s.(up := s.up + s.h.left[..k],
           h := if k == |s.h.left| then Awaiting([]) else Sending(s.h.left[k..]))
      case HelperRead(k) =>
        var got := s.h.got + s.down[..k];
        var s1 := s.(down := s.down[k..], h := Awaiting(got));
        if MsgNeeds(got) == 0 then ReplyArrived(s1, got) else s1
      case Finish(passed) => s.(h := Exited(passed))
  }

  function Initial(capacity: nat): System {
    System(Polling, Thinking, [], [], [], capacity, [], [], [], [])
  }

  function Run(s: System, actions: seq<Action>): System {
    if actions == [] then s
    else Step(Run(s, actions[..|actions| - 1]), actions[|actions| - 1])
  }

  // ----- The invariant ---------------------------------------------------------

  function Got(d: Dialog): seq<byte> {
    if d.Reading? then d.got else []
  }

  predicate Listening(d: Dialog) {
    d.Polling? || d.Reading?
  }

  ghost predicate AllProper(ps: seq<Prompt>) {
    forall i :: 0 <= i < |ps| ==> Proper(ps[i])
  }

  /** Nothing outstanding: both sides have seen the same. */
  predicate Settled(s: System) {
    s.seen == s.asked && s.heard == s.given && |s.given| == |s.asked| && s.up == [] && s.down == []
  }

  /** A prompt is on its way; `rest` is what the helper has not written yet. */
  predicate PromptOut(s: System, rest: seq<byte>) {
    && |s.asked| > 0 && Proper(s.asked[|s.asked| - 1])
    && s.seen == s.asked[..|s.asked| - 1] && s.heard == s.given && |s.given| == |s.seen|
    && Listening(s.d) && s.down == []
    && Got(s.d) + s.up + rest == PromptFrame(s.asked[|s.asked| - 1])
    && |Got(s.d)| < |PromptFrame(s.asked[|s.asked| - 1])|
  }

  /** The user is being asked. */
  predicate AtUser(s: System) {
    && |s.asked| > 0 && s.d == Asking(s.asked[|s.asked| - 1])
    && s.seen == s.asked && s.heard == s.given && |s.given| + 1 == |s.asked|
    && s.up == [] && s.down == []
  }

  /** A reply is on its way; `got` is what the helper has read, `rest` what the dialog
      has not written yet. */
  predicate ReplyOut(s: System, got: seq<byte>, rest: seq<byte>) {
    && |s.given| > 0 && |s.given[|s.given| - 1]| < MAXLEN
    && s.seen == s.asked && |s.given| == |s.asked| && s.heard == s.given[..|s.given| - 1]
    && s.up == []
    && got + s.down + rest == MsgFrame(s.given[|s.given| - 1])
    && |got| < |MsgFrame(s.given[|s.given| - 1])|
  }

  /** A prompt of type 0 was read and passed over: the user never saw it, and nothing is
      on its way in either direction. */
  predicate Skipped(s: System) {
    && |s.asked| > 0 && s.asked[|s.asked| - 1].style == 0
    && s.seen == s.asked[..|s.asked| - 1] && s.heard == s.given && |s.given| == |s.seen|
    && Listening(s.d) && Got(s.d) == [] && s.up == [] && s.down == []
  }

  predicate Phase(s: System) {
    match s.h
    case Thinking => Settled(s) && Listening(s.d) && Got(s.d) == []
    case Exited(passed) => Settled(s) && Got(s.d) == [] && (Listening(s.d) || s.d == Done(passed))
    case Sending(left) => left != [] && PromptOut(s, left)
    case Awaiting(got) =>
      || (got == [] && PromptOut(s, []))
      || (got == [] && AtUser(s))
      || (got == [] && Skipped(s))
      || (s.d.Replying? && s.d.left != [] && ReplyOut(s, got, s.d.left))
      || (Listening(s.d) && Got(s.d) == [] && ReplyOut(s, got, []))
  }

  ghost predicate Inv(s: System) {
    s.capacity > 0 && AllProper(s.todo) && Phase(s)
  }

  // ----- Frames arrive whole ---------------------------------------------------

  /** Reading follows the frame: the current read never asks for more than the frame has
      left, and is satisfied exactly at its end. */
  lemma MsgNeedsWithin(p: Text, got: seq<byte>)
    requires |p| < MAXLEN && got <= MsgFrame(p)
    ensures MsgNeeds(got) <= |MsgFrame(p)| - |got|
    ensures MsgNeeds(got) == 0 <==> got == MsgFrame(p)
  {
    if |got| >= SIZE_LEN {
      assert got[..SIZE_LEN] == MsgFrame(p)[..SIZE_LEN] == Bytes(|p|, SIZE_LEN);
      Limits();
      NumberOfBytes(|p|, SIZE_LEN);
      assert got == MsgFrame(p)[..|got|];
    }
  }

  lemma PromptNeedsWithin(p: Prompt, got: seq<byte>)
    requires Proper(p) && got <= PromptFrame(p)
    ensures PromptNeeds(got) <= |PromptFrame(p)| - |got|
    ensures PromptNeeds(got) == 0 <==> got == PromptFrame(p)
  {
    if |got| >= TYPE_LEN {
      var f := PromptFrame(p);
      assert f[TYPE_LEN..] == MsgFrame(p.text);
      assert got == f[..|got|];
      assert got[TYPE_LEN..] == f[TYPE_LEN..][..|got| - TYPE_LEN];
      MsgNeedsWithin(p.text, got[TYPE_LEN..]);
      if got[TYPE_LEN..] == MsgFrame(p.text) {
        assert got == f[..TYPE_LEN] + got[TYPE_LEN..];
      }
    }
  }

  lemma PromptParsed(p: Prompt)
    requires Proper(p)
    ensures ParsePrompt(PromptFrame(p), MAXLEN, 0) == Parsed(p.style, p.text, |PromptFrame(p)|)
  {
    PromptRoundTrip(p, [], MAXLEN, 0);
    assert PromptFrame(p) + [] == PromptFrame(p);
  }

  lemma MsgParsed(p: Text)
    requires |p| < MAXLEN
    ensures ParseMsg(MsgFrame(p), MAXLEN, 0) == Parsed(|p|, p, |MsgFrame(p)|)
  {
    MsgRoundTrip(p, [], MAXLEN, 0);
    assert MsgFrame(p) + [] == MsgFrame(p);
  }

  lemma Split(a: seq<byte>, b: seq<byte>, c: seq<byte>, k: nat)
    requires k <= |b|
    ensures (a + b[..k]) + b[k..] + c == a + b + c
    ensures a + b[..k] <= a + b + c
  {
    assert b == b[..k] + b[k..];
  }

  // ----- Every action keeps the invariant --------------------------------------

  lemma DialogReadKeeps(s: System, k: nat)
    requires Inv(s) && Enabled(s, DialogRead(k))
    ensures Inv(Step(s, DialogRead(k)))
  {
    var p := s.asked[|s.asked| - 1];
    var got := s.d.got + s.up[..k];
    var rest := if s.h.Sending? then s.h.left else [];
    Split(s.d.got, s.up, rest, k);
    PromptNeedsWithin(p, got);
    hide PromptNeeds, PromptFrame;
    if got == PromptFrame(p) {
      PromptParsed(p);
      assert rest == [] && s.up[k..] == [];
      hide ParsePrompt;
      assert s.asked == s.asked[..|s.asked| - 1] + [p];
    }
  }

  lemma HelperWriteKeeps(s: System, k: nat)
    requires Inv(s) && Enabled(s, HelperWrite(k))
    ensures Inv(Step(s, HelperWrite(k)))
  {
    hide PromptNeeds, MsgNeeds, PromptFrame, Proper;
    var left := s.h.left;
    assert left == left[..k] + left[k..];
    assert Got(s.d) + (s.up + left[..k]) + left[k..] == Got(s.d) + s.up + left;
    if k == |left| {
      assert left[k..] == [];
    }
  }

  lemma DialogWriteKeeps(s: System, k: nat)
    requires Inv(s) && Enabled(s, DialogWrite(k))
    ensures Inv(Step(s, DialogWrite(k)))
  {
    hide PromptNeeds, MsgNeeds, PromptFrame, MsgFrame, Proper;
    var left, got := s.d.left, s.h.got;
    assert left == left[..k] + left[k..];
    assert got + (s.down + left[..k]) + left[k..] == got + s.down + left;
    if k == |left| {
      assert left[k..] == [];
    }
  }

  lemma NextMessageKeeps(s: System)
    requires s.capacity > 0 && AllProper(s.todo) && Settled(s) && Listening(s.d) && Got(s.d) == []
    ensures Inv(NextMessage(s))
  {
    hide PromptFrame;
    if s.todo != [] {
      var p := s.todo[0];
      assert Proper(p);
      var r := NextMessage(s);
      assert [] + [] + PromptFrame(p) == PromptFrame(p);
      assert r.asked[..|r.asked| - 1] == s.asked;
      assert PromptOut(r, r.h.left);
      assert AllProper(r.todo);
    }
  }

  lemma HelperReadKeeps(s: System, k: nat)
    requires Inv(s) && Enabled(s, HelperRead(k))
    ensures Inv(Step(s, HelperRead(k)))
  {
    var p := s.given[|s.given| - 1];
    var got := s.h.got + s.down[..k];
    var rest := if s.d.Replying? then s.d.left else [];
    Split(s.h.got, s.down, rest, k);
    MsgNeedsWithin(p, got);
    hide MsgNeeds, MsgFrame, NextMessage;
    if got == MsgFrame(p) {
      MsgParsed(p);
      assert rest == [] && s.down[k..] == [];
      assert s.given == s.given[..|s.given| - 1] + [p];
      hide ParseMsg;
      NextMessageKeeps(s.(down := s.down[k..], h := Awaiting(got), heard := s.heard + [p]));
    }
  }

  lemma AnswerKeeps(s: System, text: Text)
    requires Inv(s) && Enabled(s, Answer(text))
    ensures Inv(Step(s, Answer(text)))
  {
    hide MsgNeeds, PromptNeeds, MsgFrame, PromptFrame, Proper;
    var r := Step(s, Answer(text));
    assert AtUser(s) && s.h == Awaiting([]);
    hide PromptOut, Skipped, Settled;
    assert [] + [] + MsgFrame(text) == MsgFrame(text);
    assert r.given[..|r.given| - 1] == s.given;
    assert ReplyOut(r, [], MsgFrame(text));
  }

  lemma TurnKeeps(s: System, a: Action)
    requires Inv(s) && Enabled(s, a)
    requires a.Poll? || a.DialogEof? || a.Finish? || a.Ask?
    ensures Inv(Step(s, a))
  {
    hide NextMessage;
    if a.Ask? {
      NextMessageKeeps(s.(todo := a.prompts));
    }
    hide PromptFrame, MsgFrame, PromptNeeds, MsgNeeds;
  }

  lemma StepKeeps(s: System, a: Action)
    requires Inv(s)
    ensures Inv(Step(s, a))
  {
    if Enabled(s, a) {
      hide Step, Inv, Enabled;
      match a
      case DialogRead(k) => DialogReadKeeps(s, k);
      case Answer(text) => AnswerKeeps(s, text);
      case DialogWrite(k) => DialogWriteKeeps(s, k);
      case HelperWrite(k) => HelperWriteKeeps(s, k);
      case HelperRead(k) => HelperReadKeeps(s, k);
      case _ => TurnKeeps(s, a);
    } else {
      hide Inv, Enabled;
    }
  }

  /** The invariant holds after every run. */
  lemma {:induction false} RunKeeps(capacity: nat, actions: seq<Action>)
    requires capacity > 0
    ensures Inv(Run(Initial(capacity), actions))
  {
    if actions != [] {
      RunKeeps(capacity, actions[..|actions| - 1]);
      StepKeeps(Run(Initial(capacity), actions[..|actions| - 1]), actions[|actions| - 1]);
    }
  }

  // ----- What the protocol promises --------------------------------------------

  ghost predicate PartOf(part: seq<byte>, frame: seq<byte>) {
    exists a, b :: a + part + b == frame
  }

  /** At most one frame is in flight: never bytes in both pipes, and what is in a pipe is
      a piece of the latest prompt or of the latest reply. */
  lemma OneFrameInFlight(capacity: nat, actions: seq<Action>)
    requires capacity > 0
    ensures var s := Run(Initial(capacity), actions);
            && (s.up == [] || s.down == [])
            && (s.up != [] ==> |s.asked| > 0 && PartOf(s.up, PromptFrame(s.asked[|s.asked| - 1])))
            && (s.down != [] ==> |s.given| > 0 && PartOf(s.down, MsgFrame(s.given[|s.given| - 1])))
  {
    RunKeeps(capacity, actions);
    hide PromptFrame, MsgFrame, Run;
    var s := Run(Initial(capacity), actions);
    if s.up != [] {
      var rest := if s.h.Sending? then s.h.left else [];
      assert Got(s.d) + s.up + rest == PromptFrame(s.asked[|s.asked| - 1]);
    } else if s.down != [] {
      var rest := if s.d.Replying? then s.d.left else [];
      assert s.h.got + s.down + rest == MsgFrame(s.given[|s.given| - 1]);
    }
  }

  /** The user sees PAM's prompts in order, and the n-th reply that PAM hears is the
      user's answer to the n-th prompt. */
  lemma RepliesInOrder(capacity: nat, actions: seq<Action>)
    requires capacity > 0
    ensures var s := Run(Initial(capacity), actions);
            && s.seen <= s.asked && s.heard <= s.given
            && |s.heard| <= |s.given| <= |s.seen| <= |s.asked| <= |s.heard| + 1
            && (s.h.Thinking? || s.h.Exited? ==> |s.heard| == |s.asked|)
  {
    RunKeeps(capacity, actions);
    hide PromptFrame, MsgFrame, Run;
  }

  /** The messages that action `a` adds to what PAM wants to know. */
  function Wanted(s: System, a: Action): seq<Prompt> {
    if a.Ask? && Enabled(s, a) then a.prompts else []
  }

  /** All messages of all conversation calls of a run. */
  function Requested(s: System, actions: seq<Action>): seq<Prompt> {
    if actions == [] then []
    else
      var k := |actions| - 1;
      Requested(s, actions[..k]) + Wanted(Run(s, actions[..k]), actions[k])
  }

  predicate NothingLeft(s: System) {
    s.h.Thinking? || s.h.Exited? ==> s.todo == []
  }

  lemma NextAsks(s: System)
    requires AllProper(s.todo)
    ensures var r := NextMessage(s);
            r.asked + r.todo == s.asked + s.todo && NothingLeft(r)
  {
    hide PromptFrame;
  }

  lemma ReplyAsks(s: System, k: nat)
    requires Inv(s) && Enabled(s, HelperRead(k))
    ensures var r := Step(s, HelperRead(k));
            r.asked + r.todo == s.asked + s.todo && NothingLeft(r)
  {
    var p := s.given[|s.given| - 1];
    var got := s.h.got + s.down[..k];
    Split(s.h.got, s.down, if s.d.Replying? then s.d.left else [], k);
    MsgNeedsWithin(p, got);
    hide MsgNeeds, MsgFrame, NextMessage;
    if got == MsgFrame(p) {
      MsgParsed(p);
      hide ParseMsg;
      NextAsks(s.(down := s.down[k..], h := Awaiting(got), heard := s.heard + [p]));
    }
  }

  /** No step loses or invents a message. */
  lemma StepAsks(s: System, a: Action)
    requires Inv(s) && NothingLeft(s)
    ensures var r := Step(s, a);
            r.asked + r.todo == s.asked + s.todo + Wanted(s, a) && NothingLeft(r)
  {
    if a.HelperRead? && Enabled(s, a) {
      hide Inv, Enabled, Step;
      ReplyAsks(s, a.count);
    } else if a.Ask? && Enabled(s, a) {
      hide Inv, NextMessage;
      NextAsks(s.(todo := a.prompts));
    } else {
      hide Inv, NextMessage, ParsePrompt, PromptFrame, MsgFrame, PromptNeeds, MsgNeeds;
    }
  }

  lemma {:induction false} RunAsks(capacity: nat, actions: seq<Action>)
    requires capacity > 0
    ensures var s := Run(Initial(capacity), actions);
            s.asked + s.todo == Requested(Initial(capacity), actions) && NothingLeft(s)
  {
    if actions != [] {
      var k := |actions| - 1;
      RunAsks(capacity, actions[..k]);
      RunKeeps(capacity, actions[..k]);
      hide Inv, Step, Wanted;
      StepAsks(Run(Initial(capacity), actions[..k]), actions[k]);
    }
  }

  /** Whenever the conversation function has returned, every message of every call was asked,
      in order, and answered. */
  lemma EverythingAsked(capacity: nat, actions: seq<Action>)
    requires capacity > 0
    ensures var s := Run(Initial(capacity), actions);
            s.h.Thinking? || s.h.Exited? ==>
              && s.asked == s.seen == Requested(Initial(capacity), actions)
              && s.heard == s.given && |s.heard| == |s.asked|
  {
    RunAsks(capacity, actions);
    RunKeeps(capacity, actions);
    hide PromptFrame, MsgFrame, Run, Requested;
  }

  predicate DialogCanMove(s: System) {
    match s.d
    case Polling => true
    case Reading(_) => s.up != [] || s.h.Exited?
    case Asking(_) => true               // it is the user's turn
    case Replying(_) => |s.down| < s.capacity
    case Done(_) => false
  }

  predicate HelperCanMove(s: System) {
    match s.h
    case Thinking => true                // it is PAM's turn
    case Sending(_) => |s.up| < s.capacity
    case Awaiting(_) => s.down != []
    case Exited(_) => false
  }

  predicate BothBlocked(s: System) {
    !DialogCanMove(s) && !HelperCanMove(s)
  }

  /** Until the helper exits, the two block each other exactly if a prompt of type 0 was
      passed over and the dialog is reading again, however small the pipes are; and the
      dialog does not give up. */
  lemma BlockedExactlyIfSkipped(capacity: nat, actions: seq<Action>)
    requires capacity > 0
    ensures var s := Run(Initial(capacity), actions);
            !s.h.Exited? ==>
              !s.d.Done? && (BothBlocked(s) <==> s.h.Awaiting? && s.d.Reading? && Skipped(s))
  {
    RunKeeps(capacity, actions);
    hide PromptFrame, MsgFrame, Run;
  }

  ghost predicate NoZero(ps: seq<Prompt>) {
    forall i :: 0 <= i < |ps| ==> ps[i].style != 0
  }

  lemma {:induction false} ZeroIsAskedFor(capacity: nat, actions: seq<Action>)
    requires forall i :: 0 <= i < |actions| && actions[i].Ask? ==> NoZero(actions[i].prompts)
    ensures var s := Run(Initial(capacity), actions);
            NoZero(s.asked) && NoZero(s.todo)
  {
    if actions != [] {
      ZeroIsAskedFor(capacity, actions[..|actions| - 1]);
      assert actions[|actions| - 1].Ask? ==> NoZero(actions[|actions| - 1].prompts);
      hide PromptFrame, MsgFrame, PromptNeeds, MsgNeeds, ParsePrompt, ParseMsg;
    }
  }

  /** As long as PAM asks nothing of type 0, one side can always move until the helper
      exits, and the dialog does not give up. */
  lemma NeverBothBlocked(capacity: nat, actions: seq<Action>)
    requires capacity > 0
    requires forall i :: 0 <= i < |actions| && actions[i].Ask? ==> NoZero(actions[i].prompts)
    ensures var s := Run(Initial(capacity), actions);
            !s.h.Exited? ==> (DialogCanMove(s) || HelperCanMove(s)) && !s.d.Done?
  {
    BlockedExactlyIfSkipped(capacity, actions);
    ZeroIsAskedFor(capacity, actions);
    hide Run;
  }

  /** A prompt that was passed over stays so: whatever is done, the helper never exits. */
  lemma SkippedForGood(s: System, a: Action)
    requires Skipped(s) && s.h == Awaiting([])
    ensures Skipped(Step(s, a)) && Step(s, a).h == Awaiting([])
  {
    hide PromptFrame, MsgFrame, PromptNeeds, MsgNeeds, ParsePrompt, ParseMsg;
  }

  /** A process that can move has an action to take. */
  lemma CanMoveMeansEnabled(s: System)
    requires Inv(s)
    ensures DialogCanMove(s) && !s.d.Asking? ==>
              Enabled(s, Poll) || Enabled(s, DialogRead(1)) || Enabled(s, DialogEof) || Enabled(s, DialogWrite(1))
    ensures HelperCanMove(s) && !s.h.Thinking? ==>
              Enabled(s, HelperWrite(1)) || Enabled(s, HelperRead(1))
  {
    if s.d.Reading? && s.up != [] {
      var rest := if s.h.Sending? then s.h.left else [];
      Split(s.d.got, s.up, rest, 0);
      assert s.d.got + s.up[..0] == s.d.got;
      PromptNeedsWithin(s.asked[|s.asked| - 1], s.d.got);
    }
    if s.h.Awaiting? && s.down != [] {
      var rest := if s.d.Replying? then s.d.left else [];
      Split(s.h.got, s.down, rest, 0);
      assert s.h.got + s.down[..0] == s.h.got;
      MsgNeedsWithin(s.given[|s.given| - 1], s.h.got);
    }
    hide PromptFrame, MsgFrame, PromptNeeds, MsgNeeds;
  }

  /** The dialog accepts the user exactly if pam_authenticate succeeded: no result before
      the helper exits, and then, two steps later at most, the helper's verdict. */
  lemma VerdictIsPams(capacity: nat, actions: seq<Action>)
    requires capacity > 0
    ensures var s := Run(Initial(capacity), actions);
            && (s.d.Done? ==> s.h == Exited(s.d.result))
            && (s.h.Exited? ==> Step(Step(s, DialogEof), Poll).d == Done(s.h.passed))
  {
    RunKeeps(capacity, actions);
    hide PromptFrame, MsgFrame, Run;
  }

  lemma RunOn(s: System, actions: seq<Action>, a: Action)
    ensures Run(s, actions + [a]) == Step(Run(s, actions), a)
  {
    hide Step;
    assert (actions + [a])[..|actions|] == actions;
  }

  lemma ReadsHeader(f: seq<byte>, head: seq<byte>)
    requires f == PromptFrame(Prompt(0, [])) && head == f[..4]
    ensures PromptNeeds([]) == 4 && PromptNeeds(head) == 8 && PromptNeeds(f) == 0
  {
    PromptNeedsWithin(Prompt(0, []), f);
    hide PromptFrame, Number;
    assert head[TYPE_LEN..] == [];
  }

  const ZeroRun: seq<Action> := [Ask([Prompt(0, [])]), HelperWrite(12), Poll, DialogRead(4), DialogRead(8), Poll]

  /** The prompt is sent, and the dialog begins to read. */
  function ZeroSent(capacity: nat, f: seq<byte>): System {
    Initial(capacity).(d := Reading([]), h := Awaiting([]), up := f, asked := [Prompt(0, [])])
  }

  lemma ZeroIsSent(capacity: nat, f: seq<byte>)
    requires capacity >= 12 && f == PromptFrame(Prompt(0, []))
    ensures Step(Step(Step(Initial(capacity), ZeroRun[0]), ZeroRun[1]), ZeroRun[2]) == ZeroSent(capacity, f)
  {
    hide PromptFrame, PromptNeeds, ParsePrompt;
    var s0 := Initial(capacity);
    var s1 := Step(s0, ZeroRun[0]);
    assert s1 == s0.(h := Sending(f), asked := [Prompt(0, [])]);
    assert f[..12] == f;
    assert Step(s1, ZeroRun[1]) == s1.(h := Awaiting([]), up := f);
  }

  lemma TypeIsRead(s: System, head: seq<byte>, tail: seq<byte>)
    requires |head| == 4 && s.d == Reading([]) && s.up == head + tail
    requires PromptNeeds([]) == 4 && PromptNeeds(head) == 8
    ensures Step(s, ZeroRun[3]) == s.(d := Reading(head), up := tail)
  {
    hide PromptNeeds, ParsePrompt;
    assert [] + s.up[..4] == head && s.up[4..] == tail;
  }

  lemma LengthIsRead(s: System, head: seq<byte>, tail: seq<byte>)
    requires |tail| == 8 && s.d == Reading(head) && s.up == tail
    requires PromptNeeds(head) == 8 && PromptNeeds(head + tail) == 0 && ParsePrompt(head + tail, MAXLEN, 0).code == 0
    ensures Step(s, ZeroRun[4]) == s.(d := Polling, up := [])
  {
    hide PromptNeeds, ParsePrompt;
    assert tail[..8] == tail && tail[8..] == [];
  }

  lemma ZeroIsRead(capacity: nat, f: seq<byte>)
    requires f == PromptFrame(Prompt(0, []))
    ensures Step(Step(ZeroSent(capacity, f), ZeroRun[3]), ZeroRun[4]) == ZeroSent(capacity, f).(d := Polling, up := [])
  {
    var s, head, tail := ZeroSent(capacity, f), f[..4], f[4..];
    assert head + tail == f;
    ReadsHeader(f, head);
    PromptParsed(Prompt(0, []));
    hide Step, PromptFrame, PromptNeeds, ParsePrompt;
    TypeIsRead(s, head, tail);
    LengthIsRead(s.(d := Reading(head), up := tail), head, tail);
  }

  /** A prompt of type 0 and no text: after six actions both sides wait for each other. */
  lemma TypeZeroBlocksBoth(capacity: nat)
    requires capacity >= 12
    ensures BothBlocked(Run(Initial(capacity), ZeroRun))
  {
    var f := PromptFrame(Prompt(0, []));
    hide PromptFrame, Run;
    RunZero(Initial(capacity));
    ZeroIsSent(capacity, f);
    ZeroIsRead(capacity, f);
  }

  lemma RunZero(s0: System)
    ensures Run(s0, ZeroRun) ==
            Step(Step(Step(Step(Step(Step(s0, ZeroRun[0]), ZeroRun[1]), ZeroRun[2]), ZeroRun[3]), ZeroRun[4]), ZeroRun[5])
  {
    hide Step;
    RunOn(s0, [], ZeroRun[0]);
    RunOn(s0, ZeroRun[..1], ZeroRun[1]);
    RunOn(s0, ZeroRun[..2], ZeroRun[2]);
    RunOn(s0, ZeroRun[..3], ZeroRun[3]);
    RunOn(s0, ZeroRun[..4], ZeroRun[4]);
    RunOn(s0, ZeroRun[..5], ZeroRun[5]);
    assert [] + [ZeroRun[0]] == ZeroRun[..1];
    assert ZeroRun[..1] + [ZeroRun[1]] == ZeroRun[..2] && ZeroRun[..2] + [ZeroRun[2]] == ZeroRun[..3];
    assert ZeroRun[..3] + [ZeroRun[3]] == ZeroRun[..4] && ZeroRun[..4] + [ZeroRun[4]] == ZeroRun[..5];
    assert ZeroRun[..5] + [ZeroRun[5]] == ZeroRun;
  }

  // ----- Every exchange comes to an end ------------------------------------------

  function Work(s: System): nat {
    (if s.h.Sending? then 3 * |s.h.left| else 0) + 2 * |s.up|
    + (if s.d.Replying? then 3 * |s.d.left| else 0) + |s.down|
    + (if s.d.Polling? then 1 else 0)
  }

  predicate Internal(a: Action) {
    a.Poll? || a.DialogRead? || a.DialogWrite? || a.HelperWrite? || a.HelperRead?
  }

  /** While the helper runs, steps that are neither PAM's nor the user's use up the
      current exchange: only finitely many of them follow one another. */
  lemma InternalStepsEnd(s: System, a: Action)
    requires Inv(s) && Internal(a) && Enabled(s, a) && !s.h.Exited?
    ensures var r := Step(s, a);
            |r.todo| < |s.todo| || (r.todo == s.todo && Work(r) < Work(s))
  {
    match a
    case DialogRead(k) => ReadingUsesUp(s, k);
    case HelperRead(k) => HearingUsesUp(s, k);
    case _ =>
      hide PromptFrame, MsgFrame, PromptNeeds, MsgNeeds;
  }

  lemma ReadingUsesUp(s: System, k: nat)
    requires Inv(s) && Enabled(s, DialogRead(k))
    ensures var r := Step(s, DialogRead(k)); r.todo == s.todo && Work(r) < Work(s)
  {
    var p := s.asked[|s.asked| - 1];
    var got := s.d.got + s.up[..k];
    Split(s.d.got, s.up, if s.h.Sending? then s.h.left else [], k);
    PromptNeedsWithin(p, got);
    PromptParsed(p);
    hide PromptFrame, MsgFrame, PromptNeeds, MsgNeeds, ParsePrompt;
  }

  lemma HearingUsesUp(s: System, k: nat)
    requires Inv(s) && Enabled(s, HelperRead(k))
    ensures var r := Step(s, HelperRead(k));
            |r.todo| < |s.todo| || (r.todo == s.todo && Work(r) < Work(s))
  {
    var p := s.given[|s.given| - 1];
    var got := s.h.got + s.down[..k];
    Split(s.h.got, s.down, if s.d.Replying? then s.d.left else [], k);
    MsgNeedsWithin(p, got);
    MsgParsed(p);
    hide PromptFrame, MsgFrame, PromptNeeds, MsgNeeds, ParseMsg;
    assert s.todo != [] ==> Proper(s.todo[0]);
  }
}
