/** The two loops that hold the conversation: the helper's PAM conversation function and
    the dialog's polling loop, each against everything its pipe will ever deliver. */
module HelperLoops {
  import opened Framing

  const MAXLEN: nat := 1024

  type Text = seq<byte>

  datatype Replies = Answered(texts: seq<Text>, rest: seq<byte>) | Failed

  /** The first `n` messages of a reply stream. */
  function TakeReplies(s: seq<byte>, n: nat, junk: nat): (r: Replies)
    ensures r.Answered? ==> |r.texts| == n
  {
    if n == 0 then Answered([], s)
    else
      var p := ParseMsg(s, MAXLEN, junk);
      if p.code < 0 then Failed
      else
        match TakeReplies(s[p.used..], n - 1, junk)
        case Failed => Failed
        case Answered(texts, rest) => Answered([p.payload] + texts, rest)
  }

  lemma {:induction false} TakeOneMore(s: seq<byte>, n: nat, junk: nat)
    ensures match TakeReplies(s, n, junk)
            case Failed => TakeReplies(s, n + 1, junk) == Failed
            case Answered(texts, rest) =>
              var p := ParseMsg(rest, MAXLEN, junk);
              TakeReplies(s, n + 1, junk) ==
              if p.code < 0 then Failed else Answered(texts + [p.payload], rest[p.used..])
  {
    hide ParseMsg;
    if n > 0 {
      var p := ParseMsg(s, MAXLEN, junk);
      if p.code >= 0 {
        TakeOneMore(s[p.used..], n - 1, junk);
      }
    } else {
      var p := ParseMsg(s, MAXLEN, junk);
      if p.code >= 0 {
        assert TakeReplies(s[p.used..], 0, junk) == Answered([], s[p.used..]);
      }
    }
  }

  lemma {:induction false} FailedStays(s: seq<byte>, n: nat, m: nat, junk: nat)
    requires n <= m && TakeReplies(s, n, junk).Failed?
    ensures TakeReplies(s, m, junk).Failed?
    decreases m
  {
    hide TakeReplies;
    if n < m {
      FailedStays(s, n, m - 1, junk);
      TakeOneMore(s, m - 1, junk);
    }
  }

  /** The next reply decides: it is one more, or the whole conversation fails. */
  lemma TakeNext(s: seq<byte>, n: nat, total: nat, texts: seq<Text>, rest: seq<byte>, junk: nat)
    requires n < total && TakeReplies(s, n, junk) == Answered(texts, rest)
    ensures var p := ParseMsg(rest, MAXLEN, junk);
            if p.code < 0 then TakeReplies(s, total, junk) == Failed
            else TakeReplies(s, n + 1, junk) == Answered(texts + [p.payload], rest[p.used..])
  {
    hide TakeReplies, ParseMsg;
    TakeOneMore(s, n, junk);
    if ParseMsg(rest, MAXLEN, junk).code < 0 {
      FailedStays(s, n + 1, total, junk);
    }
  }

  /** One message: it is sent and its reply is read. */
  method ConverseOnce(msg: Prompt, stdout: WriteEnd, stdin: ReadEnd, junk: nat) returns (ok: bool, text: Text)
    requires IsInt(msg.style) && |msg.text| < SIZE_LIMIT
    modifies stdout, stdin
    ensures old(stdout.Reliable() && stdin.Reliable()) ==>
              stdout.Reliable() && stdin.Reliable() && stdout.sent == old(stdout.sent) + PromptFrame(msg)
    ensures var p := ParseMsg(old(stdin.rest), MAXLEN, junk);
            && (ok ==> p.code >= 0 && text == p.payload && stdin.rest == old(stdin.rest)[p.used..])
            && (!ok && old(stdout.Reliable() && stdin.Reliable()) ==> p.code < 0)
  {
    hide ParseMsg, PromptFrame;
    var buf := new byte[MAXLEN];
    var wt := WritePrompt(stdout, msg.style, msg.text);
    if wt < 0 || wt != |msg.text| {
      return false, [];
    }
    var rd := ReadMsg(stdin, buf, MAXLEN, junk);
    if rd < 0 {
      return false, [];
    }
    return true, buf[..rd];
  }

  /** The helper's conversation function.  It succeeds only if every message was sent and
      answered in order, and otherwise hands back no reply at all. */
  method Converse(msgs: seq<Prompt>, stdout: WriteEnd, stdin: ReadEnd, junk: nat)
    returns (ok: bool, resp: seq<Text>)
    requires forall i :: 0 <= i < |msgs| ==> IsInt(msgs[i].style) && |msgs[i].text| < SIZE_LIMIT
    modifies stdout, stdin
    ensures !ok ==> resp == []
    ensures ok ==> TakeReplies(old(stdin.rest), |msgs|, junk) == Answered(resp, stdin.rest)
    ensures old(stdout.Reliable() && stdin.Reliable()) ==>
              && ok == TakeReplies(old(stdin.rest), |msgs|, junk).Answered?
              && (ok ==> stdout.sent == old(stdout.sent) + Stream(msgs))
  {
    ghost var s, reliable := stdin.rest, stdout.Reliable() && stdin.Reliable();
    ghost var sent := stdout.sent;
    resp := [];
    assert TakeReplies(s, 0, junk) == Answered([], s);
    assert msgs[..0] == [] && Stream(msgs[..0]) == [];
    hide ParseMsg, PromptFrame, TakeReplies, Stream, WriteEnd.Reliable, ReadEnd.Reliable;
    assert sent + [] == sent && msgs[..|msgs|] == msgs;
    ghost var sofar: seq<byte> := [];
    for num := 0 to |msgs|
      invariant TakeReplies(s, num, junk) == Answered(resp, stdin.rest)
      invariant reliable ==>
          stdout.Reliable() && stdin.Reliable() && stdout.sent == sent + sofar
      invariant sofar == Stream(msgs[..num])
    {
      TakeNext(s, num, |msgs|, resp, stdin.rest, junk);
      StreamSplit(msgs, num);
      assert (sent + sofar) + PromptFrame(msgs[num]) == sent + (sofar + PromptFrame(msgs[num]));
      sofar := sofar + PromptFrame(msgs[num]);
      var answered, text := ConverseOnce(msgs[num], stdout, stdin, junk);
      if !answered {
        return false, [];
      }
      resp := resp + [text];
    }
    ok := true;
  }

  // ----- The dialog's side -----------------------------------------------------

  datatype Served = Served(ok: bool, sent: seq<byte>)

  /** What the dialog does in `polls` rounds on a prompt stream. */
  function Serve(s: seq<byte>, polls: nat, answer: Prompt -> Text, junk: nat): Served {
    if polls == 0 then Served(true, [])
    else
      var r := ParsePrompt(s, MAXLEN, junk);
      if r.code == 0 then Serve(s[r.used..], polls - 1, answer, junk)
      else if r.code < 0 then Served(false, [])
      else
        var more := Serve(s[r.used..], polls - 1, answer, junk);
        Served(more.ok, MsgFrame(answer(Prompt(r.code, r.payload))) + more.sent)
  }

  /** The dialog's loop: `polls` times the helper was still running; `status` is its exit
      status, negative if it did not exit by itself. */
  method ExtRun(polls: nat, status: int, prompts: ReadEnd, replies: WriteEnd, answer: Prompt -> Text, junk: nat)
    returns (ret: bool)
    requires forall p :: |answer(p)| < TYPE_LIMIT
    modifies prompts, replies
    ensures ret ==> status == 0
    ensures old(prompts.Reliable() && replies.Reliable()) ==>
              var served := Serve(old(prompts.rest), polls, answer, junk);
              ret == (served.ok && status == 0) && replies.sent == old(replies.sent) + served.sent
  {
    hide ParsePrompt, MsgFrame;
    ghost var reliable := prompts.Reliable() && replies.Reliable();
    var left := polls;
    while left > 0
      invariant reliable ==> prompts.Reliable() && replies.Reliable()
      invariant reliable ==>
          var now, all := Serve(prompts.rest, left, answer, junk), Serve(old(prompts.rest), polls, answer, junk);
          now.ok == all.ok && replies.sent + now.sent == old(replies.sent) + all.sent
    {
      left := left - 1;
      var buf := new byte[MAXLEN];
      var style, msgLen := ReadPrompt(prompts, buf, MAXLEN, junk);
      if style == 0 {
        continue;
      }
      if style < 0 {
        return false;
      }
      var input := answer(Prompt(style, buf[..msgLen]));
      var wt := WriteMsg(replies, input);
      if wt < 0 {
        return false;
      }
    }
    return status == 0;
  }

  // ----- Both together ---------------------------------------------------------

  function Frames(texts: seq<Text>): seq<byte> {
    if texts == [] then [] else MsgFrame(texts[0]) + Frames(texts[1..])
  }

  function Answers(ps: seq<Prompt>, answer: Prompt -> Text): seq<Text> {
    seq(|ps|, i requires 0 <= i < |ps| => answer(ps[i]))
  }

  lemma {:induction false} ServeNothing(polls: nat, answer: Prompt -> Text, junk: nat)
    ensures Serve([], polls, answer, junk) == Served(true, [])
  {
    if polls > 0 {
      ServeNothing(polls - 1, answer, junk);
    }
  }

  lemma ServeOne(p: Prompt, rest: seq<byte>, polls: nat, answer: Prompt -> Text, junk: nat)
    requires 0 < p.style && IsInt(p.style) && |p.text| < MAXLEN && polls > 0
    ensures var more := Serve(rest, polls - 1, answer, junk);
            Serve(PromptFrame(p) + rest, polls, answer, junk) == Served(more.ok, MsgFrame(answer(p)) + more.sent)
  {
    hide ParsePrompt, PromptFrame, MsgFrame;
    PromptRoundTrip(p, rest, MAXLEN, junk);
    assert (PromptFrame(p) + rest)[|PromptFrame(p)|..] == rest;
  }

  lemma {:induction false} ServeAnswersAll(ps: seq<Prompt>, polls: nat, answer: Prompt -> Text, junk: nat)
    requires forall i :: 0 <= i < |ps| ==> 0 < ps[i].style && IsInt(ps[i].style) && |ps[i].text| < MAXLEN
    requires polls >= |ps|
    ensures Serve(Stream(ps), polls, answer, junk) == Served(true, Frames(Answers(ps, answer)))
    decreases |ps|
  {
    hide Serve, PromptFrame, MsgFrame;
    if ps == [] {
      ServeNothing(polls, answer, junk);
    } else {
      ServeOne(ps[0], Stream(ps[1..]), polls, answer, junk);
      ServeAnswersAll(ps[1..], polls - 1, answer, junk);
      assert Answers(ps, answer)[1..] == Answers(ps[1..], answer);
    }
  }

  lemma {:induction false} RepliesComeBack(texts: seq<Text>, rest: seq<byte>, junk: nat)
    requires forall i :: 0 <= i < |texts| ==> |texts[i]| < MAXLEN
    ensures TakeReplies(Frames(texts) + rest, |texts|, junk) == Answered(texts, rest)
  {
    hide ParseMsg, MsgFrame;
    if texts == [] {
      assert Frames(texts) + rest == rest;
    } else {
      var tail := Frames(texts[1..]) + rest;
      MsgRoundTrip(texts[0], tail, MAXLEN, junk);
      assert Frames(texts) + rest == MsgFrame(texts[0]) + tail;
      assert (MsgFrame(texts[0]) + tail)[|MsgFrame(texts[0])|..] == tail;
      RepliesComeBack(texts[1..], rest, junk);
      assert texts == [texts[0]] + texts[1..];
    }
  }

  /** The n-th reply answers the n-th prompt: what the dialog sends back for the helper's
      prompts is read by the helper as exactly the dialog's answers, in order. */
  lemma RepliesAnswerPrompts(ps: seq<Prompt>, polls: nat, answer: Prompt -> Text, junk: nat)
    requires forall i :: 0 <= i < |ps| ==> 0 < ps[i].style && IsInt(ps[i].style) && |ps[i].text| < MAXLEN
    requires forall p :: |answer(p)| < MAXLEN
    requires polls >= |ps|
    ensures var served := Serve(Stream(ps), polls, answer, junk);
            && served.ok
            && TakeReplies(served.sent, |ps|, junk) == Answered(Answers(ps, answer), [])
  {
    ServeAnswersAll(ps, polls, answer, junk);
    RepliesComeBack(Answers(ps, answer), [], junk);
    assert Frames(Answers(ps, answer)) + [] == Frames(Answers(ps, answer));
  }
}
