/** The wire format between the dialog and the password helper: length-prefixed
    messages and typed prompts over pipes whose reads and writes may be partial. */
module Framing {

  type byte = x: int | 0 <= x < 256

  const IO_ERR := -1
  const LENGTH_READ_ERR := -2
  const TOO_LONG_ERR := -3
  const MSG_READ_ERR := -4
  const TYPE_READ_ERR := -5
  const LENGTH_WRITE_ERR := -6
  const MSG_WRITE_ERR := -7
  const TYPE_WRITE_ERR := -8

  const SIZE_LEN: nat := 8          // sizeof (size_t)
  const TYPE_LEN: nat := 4          // sizeof (int)
  const SIZE_LIMIT: nat := 0x1_0000_0000_0000_0000
  const TYPE_LIMIT: nat := 0x1_0000_0000

  // ----- Integers as bytes -----------------------------------------------------

  function Pow256(k: nat): nat {
    if k == 0 then 1 else 256 * Pow256(k - 1)
  }

  function Bytes(n: nat, k: nat): (s: seq<byte>)
    ensures |s| == k
  {
    if k == 0 then [] else [n % 256] + Bytes(n / 256, k - 1)
  }

  function Number(s: seq<byte>): nat {
    if s == [] then 0 else s[0] + 256 * Number(s[1..])
  }

  lemma {:induction false} NumberOfBytes(n: nat, k: nat)
    requires n < Pow256(k)
    ensures Number(Bytes(n, k)) == n
  {
    if k > 0 {
      NumberOfBytes(n / 256, k - 1);
      assert Bytes(n, k)[1..] == Bytes(n / 256, k - 1);
    }
  }

  lemma Limits()
    ensures Pow256(SIZE_LEN) == SIZE_LIMIT && Pow256(TYPE_LEN) == TYPE_LIMIT
  {
    assert Pow256(4) == TYPE_LIMIT by { assert Pow256(2) == 0x1_0000; }
    assert Pow256(6) == 0x1_0000_0000_0000 by { assert Pow256(5) == 0x100_0000_0000; }
    assert Pow256(7) == 0x100_0000_0000_0000;
  }

  predicate IsInt(t: int) {
    -0x8000_0000 <= t < 0x8000_0000
  }

  /** Two's complement. */
  function TypeBytes(t: int): (s: seq<byte>)
    ensures |s| == TYPE_LEN
  {
    Bytes(t % TYPE_LIMIT, TYPE_LEN)
  }

  function TypeOf(s: seq<byte>): int {
    var v := Number(s);
    if v >= 0x8000_0000 then v - TYPE_LIMIT else v
  }

  lemma TypeRoundTrip(t: int)
    requires IsInt(t)
    ensures TypeOf(TypeBytes(t)) == t
  {
    Limits();
    assert t % TYPE_LIMIT == if t < 0 then t + TYPE_LIMIT else t;
    NumberOfBytes(t % TYPE_LIMIT, TYPE_LEN);
  }

  // ----- Frames ----------------------------------------------------------------

  function MsgFrame(p: seq<byte>): (f: seq<byte>)
    ensures |f| == SIZE_LEN + |p|
  {
    Bytes(|p|, SIZE_LEN) + p
  }

  datatype Prompt = Prompt(style: int, text: seq<byte>)

  function PromptFrame(p: Prompt): (f: seq<byte>)
    ensures |f| == TYPE_LEN + SIZE_LEN + |p.text|
  {
    TypeBytes(p.style) + MsgFrame(p.text)
  }

  /** What reading one frame from a stream yields: the code the reader returns, the
      bytes it puts into the caller's buffer, and how much of the stream it uses. */
  datatype Parsed = Parsed(code: int, payload: seq<byte>, used: nat)

  /** `junk` is the indeterminate length that remains when the stream has ended. */
  function ParseMsg(s: seq<byte>, length: nat, junk: nat): (r: Parsed)
    ensures r.used <= |s| && |r.payload| <= length
    ensures r.code >= 0 ==> |r.payload| == r.code < length
  {
    if 0 < |s| < SIZE_LEN then Parsed(LENGTH_READ_ERR, [], |s|)
    else
      var used := if |s| == 0 then 0 else SIZE_LEN;
      var n := if |s| == 0 then junk else Number(s[..SIZE_LEN]);
      if n >= length then Parsed(TOO_LONG_ERR, [], used)
      else if |s| < used + n then Parsed(MSG_READ_ERR, s[used..], |s|)
      else Parsed(n, s[used..used + n], used + n)
  }

  function ParsePrompt(s: seq<byte>, length: nat, junk: nat): (r: Parsed)
    ensures r.used <= |s| && |r.payload| <= length
  {
    if |s| == 0 then Parsed(0, [], 0)
    else if |s| < TYPE_LEN then Parsed(TYPE_READ_ERR, [], |s|)
    else
      var m := ParseMsg(s[TYPE_LEN..], length, junk);
      Parsed(if m.code < 0 then m.code else TypeOf(s[..TYPE_LEN]), m.payload, TYPE_LEN + m.used)
  }

  /** The stream starts with a whole prompt, of whatever type. */
  predicate Complete(s: seq<byte>, length: nat, junk: nat) {
    |s| >= TYPE_LEN && ParseMsg(s[TYPE_LEN..], length, junk).code >= 0
  }

  lemma MsgRoundTrip(p: seq<byte>, rest: seq<byte>, length: nat, junk: nat)
    requires |p| < length && |p| < SIZE_LIMIT
    ensures ParseMsg(MsgFrame(p) + rest, length, junk) == Parsed(|p|, p, |MsgFrame(p)|)
  {
    Limits();
    NumberOfBytes(|p|, SIZE_LEN);
    var s := MsgFrame(p) + rest;
    assert s[..SIZE_LEN] == Bytes(|p|, SIZE_LEN);
    assert s[SIZE_LEN..SIZE_LEN + |p|] == p;
  }

  lemma PromptRoundTrip(p: Prompt, rest: seq<byte>, length: nat, junk: nat)
    requires IsInt(p.style) && |p.text| < length && |p.text| < SIZE_LIMIT
    ensures ParsePrompt(PromptFrame(p) + rest, length, junk) == Parsed(p.style, p.text, |PromptFrame(p)|)
    ensures Complete(PromptFrame(p) + rest, length, junk)
  {
    TypeRoundTrip(p.style);
    MsgRoundTrip(p.text, rest, length, junk);
    var s := PromptFrame(p) + rest;
    assert s[..TYPE_LEN] == TypeBytes(p.style);
    assert s[TYPE_LEN..] == MsgFrame(p.text) + rest;
  }

  // ----- Whole conversations ---------------------------------------------------

  function Stream(ps: seq<Prompt>): seq<byte> {
    if ps == [] then [] else PromptFrame(ps[0]) + Stream(ps[1..])
  }

  datatype Received = Received(prompts: seq<Prompt>, rest: seq<byte>)

  /** Reads `n` prompts one after the other. */
  function ReadMany(s: seq<byte>, n: nat, length: nat, junk: nat): Received {
    if n == 0 then Received([], s)
    else
      var r := ParsePrompt(s, length, junk);
      var more := ReadMany(s[r.used..], n - 1, length, junk);
      Received([Prompt(r.code, r.payload)] + more.prompts, more.rest)
  }

  /** Any sequence of prompts comes back with the same types and payloads, and the rest
      of the stream is untouched. */
  lemma {:induction false} StreamRoundTrip(ps: seq<Prompt>, rest: seq<byte>, length: nat, junk: nat)
    requires forall i :: 0 <= i < |ps| ==>
      IsInt(ps[i].style) && |ps[i].text| < length && |ps[i].text| < SIZE_LIMIT
    ensures ReadMany(Stream(ps) + rest, |ps|, length, junk) == Received(ps, rest)
  {
    hide ParsePrompt, PromptFrame;
    if ps == [] {
      assert Stream(ps) + rest == rest;
    } else {
      var s, tail := Stream(ps) + rest, Stream(ps[1..]) + rest;
      assert s == PromptFrame(ps[0]) + tail;
      PromptRoundTrip(ps[0], tail, length, junk);
      assert s[|PromptFrame(ps[0])|..] == tail;
      StreamRoundTrip(ps[1..], rest, length, junk);
      assert ps == [ps[0]] + ps[1..];
    }
  }

  /** Why prompts of type 0 are special: the reader answers 0 at end of file too. */
  lemma ZeroMeansEndOrTypeZero(s: seq<byte>, length: nat, junk: nat)
    ensures ParsePrompt(s, length, junk).code == 0 <==>
            || s == []
            || (|s| >= TYPE_LEN && TypeOf(s[..TYPE_LEN]) == 0 && ParseMsg(s[TYPE_LEN..], length, junk).code >= 0)
  {
  }

  // ----- File descriptors ------------------------------------------------------

  /** The read end of a pipe: `rest` is all that will still arrive before end of file.
      `plan` decides each call's outcome: a negative entry is an error, another one
      chooses how many bytes arrive; past its end calls are served in full. */
  class ReadEnd {
    var rest: seq<byte>
    var plan: seq<int>

    constructor (rest: seq<byte>, plan: seq<int>)
      ensures this.rest == rest && this.plan == plan
    {
      this.rest, this.plan := rest, plan;
    }

    predicate Reliable()
      reads this
    {
      forall i :: 0 <= i < |plan| ==> plan[i] >= 0
    }

    method Read(buf: array<byte>, at: nat, count: nat) returns (rd: int)
      requires at + count <= buf.Length && 0 < count
      modifies this, buf
      ensures old(Reliable()) ==> Reliable() && rd >= 0
      ensures rd < 0 ==> rest == old(rest)
      ensures rd >= 0 ==>
                && rd <= count && rd <= |old(rest)| && (rd == 0 <==> old(rest) == [])
                && rest == old(rest)[rd..]
                && forall i :: 0 <= i < rd ==> buf[at + i] == old(rest)[i]
      ensures forall i :: 0 <= i < buf.Length && !(at <= i < at + rd) ==> buf[i] == old(buf[i])
    {
      var full := if count <= |rest| then count else |rest|;
      if plan != [] && plan[0] < 0 {
        plan := plan[1..];
        return -1;
      }
      rd := if full == 0 then 0 else if plan == [] then full else 1 + plan[0] % full;
      var later := if plan == [] then plan else plan[1..];
      plan := later;
      var i := 0;
      while i < rd
        invariant 0 <= i <= rd <= |rest|
        invariant forall j :: 0 <= j < i ==> buf[at + j] == rest[j]
        invariant forall j :: 0 <= j < buf.Length && !(at <= j < at + i) ==> buf[j] == old(buf[j])
        invariant rest == old(rest) && plan == later
      {
        buf[at + i] := rest[i];
        i := i + 1;
      }
      rest := rest[rd..];
    }
  }

  predicate StallsFirst(plan: seq<int>) {
    plan != [] && plan[0] == 0
  }

  /** What the next call accepts of `n` bytes. */
  function Accepted(plan: seq<int>, n: nat): int
    requires n > 0
  {
    if plan == [] then n else if plan[0] <= 0 then plan[0] else 1 + (plan[0] - 1) % n
  }

  /** The plan that remains once `n` bytes were written or writing them stopped. */
  function PlanAfter(plan: seq<int>, n: nat): seq<int>
    decreases |plan|
  {
    if n == 0 || plan == [] then plan
    else if plan[0] <= 0 then plan[1..]
    else PlanAfter(plan[1..], n - Accepted(plan, n))
  }

  lemma PlanDone(plan: seq<int>)
    ensures PlanAfter(plan, 0) == plan
  {
  }

  lemma PlanStep(plan: seq<int>, n: nat)
    requires n > 0
    ensures var rest := if plan == [] then [] else plan[1..];
            && Accepted(plan, n) <= n
            && PlanAfter(plan, n) == if Accepted(plan, n) > 0 then PlanAfter(rest, n - Accepted(plan, n)) else rest
  {
  }

  /** The write end: `sent` is all that was accepted so far.  A negative plan entry is
      an error, zero a call that accepts nothing. */
  class WriteEnd {
    var sent: seq<byte>
    var plan: seq<int>

    constructor (plan: seq<int>)
      ensures sent == [] && this.plan == plan
    {
      sent, this.plan := [], plan;
    }

    predicate Reliable()
      reads this
    {
      forall i :: 0 <= i < |plan| ==> plan[i] > 0
    }

    predicate Stalls()
      reads this
    {
      StallsFirst(plan)
    }

    method Write(data: seq<byte>) returns (wt: int)
      requires data != []
      modifies this
      ensures old(Reliable()) ==> Reliable() && wt > 0
      ensures wt < 0 ==> sent == old(sent)
      ensures wt >= 0 ==> wt <= |data| && sent == old(sent) + data[..wt]
      ensures wt == 0 <==> old(Stalls())
      ensures wt == Accepted(old(plan), |data|) && plan == if old(plan) == [] then [] else old(plan)[1..]
    {
      if plan != [] && plan[0] <= 0 {
        wt := plan[0];
        plan := plan[1..];
        return wt;
      }
      wt := if plan == [] then |data| else 1 + (plan[0] - 1) % |data|;
      plan := if plan == [] then plan else plan[1..];
      sent := sent + data[..wt];
    }
  }

  // ----- Readers ---------------------------------------------------------------

  function Min(a: nat, b: nat): nat { if a <= b then a else b }

  /** Short reads are made up for: the result is short only at end of file. */
  method ReadAll(fd: ReadEnd, buf: array<byte>, count: nat) returns (total: int)
    requires count <= buf.Length
    modifies fd, buf
    ensures old(fd.Reliable()) ==> fd.Reliable() && total >= 0
    ensures total >= 0 ==>
              && total == Min(count, |old(fd.rest)|)
              && fd.rest == old(fd.rest)[total..]
              && forall i :: 0 <= i < total ==> buf[i] == old(fd.rest)[i]
    // whatever happens, nothing past `count` is written
    ensures forall i :: count <= i < buf.Length ==> buf[i] == old(buf[i])
  {
    ghost var s := fd.rest;
    total := 0;
    while total < count
      invariant 0 <= total <= Min(count, |s|)
      invariant fd.rest == s[total..]
      invariant forall i :: 0 <= i < total ==> buf[i] == s[i]
      invariant forall i :: count <= i < buf.Length ==> buf[i] == old(buf[i])
      invariant old(fd.Reliable()) ==> fd.Reliable()
      decreases count - total
    {
      var rd := fd.Read(buf, total, count - total);
      if rd == 0 {
        break;
      }
      if rd < 0 {
        return rd;
      }
      ReadOn(s, total, rd, buf[total..total + rd]);
      total := total + rd;
    }
  }

  /** A chunk read at `from` continues the stream. */
  lemma ReadOn(s: seq<byte>, from: nat, k: nat, chunk: seq<byte>)
    requires from + k <= |s| && |chunk| == k && forall i :: 0 <= i < k ==> chunk[i] == s[from..][i]
    ensures s[from..][k..] == s[from + k..]
    ensures forall i :: from <= i < from + k ==> chunk[i - from] == s[i]
  {
  }

  method ReadMsg(fd: ReadEnd, buf: array<byte>, length: nat, junk: nat) returns (code: int)
    requires length <= buf.Length
    modifies fd, buf
    ensures old(fd.Reliable()) ==> fd.Reliable()
    ensures var r := ParseMsg(old(fd.rest), length, junk);
            && (old(fd.Reliable()) ==> code == r.code && fd.rest == old(fd.rest)[r.used..])
            && (code == r.code || code == IO_ERR)
            && (code >= 0 ==> fd.rest == old(fd.rest)[r.used..] && buf[..code] == r.payload && buf[code] == 0)
    // the reader never writes outside the caller's buffer
    ensures forall i :: length <= i < buf.Length ==> buf[i] == old(buf[i])
  {
    ghost var s := fd.rest;
    var head := new byte[SIZE_LEN];
    var rd := ReadAll(fd, head, SIZE_LEN);
    if rd < 0 {
      return IO_ERR;
    }
    if rd > 0 && rd != SIZE_LEN {
      return LENGTH_READ_ERR;
    }
    var msgLen := if rd == 0 then junk else Number(head[..]);
    assert rd > 0 ==> head[..] == s[..SIZE_LEN];
    if msgLen >= length {
      return TOO_LONG_ERR;
    }
    if msgLen > 0 {
      ghost var t := fd.rest;
      rd := ReadAll(fd, buf, msgLen);
      if rd < 0 {
        return IO_ERR;
      }
      if rd != msgLen {
        return MSG_READ_ERR;
      }
      assert buf[..rd] == t[..rd];
    } else {
      rd := 0;
    }
    buf[rd] := 0;
    return rd;
  }

  method ReadPrompt(fd: ReadEnd, buf: array<byte>, length: nat, junk: nat) returns (code: int, msgLen: nat)
    requires length <= buf.Length
    modifies fd, buf
    ensures old(fd.Reliable()) ==> fd.Reliable()
    ensures var r := ParsePrompt(old(fd.rest), length, junk);
            && (old(fd.Reliable()) ==> code == r.code && fd.rest == old(fd.rest)[r.used..])
            && (code == r.code || code == IO_ERR)
            && (code > 0 ==> fd.rest == old(fd.rest)[r.used..] && msgLen == |r.payload| < length
                             && buf[..msgLen] == r.payload && buf[msgLen] == 0)
            && (old(fd.Reliable()) && Complete(old(fd.rest), length, junk) ==>
                  msgLen == |r.payload| < length && buf[..msgLen] == r.payload && buf[msgLen] == 0)
    ensures forall i :: length <= i < buf.Length ==> buf[i] == old(buf[i])
  {
    ghost var s := fd.rest;
    msgLen := length;
    var head := new byte[TYPE_LEN];
    var rd := ReadAll(fd, head, TYPE_LEN);
    if rd == 0 {
      return 0, msgLen;
    }
    if rd < 0 {
      return IO_ERR, msgLen;
    }
    if rd != TYPE_LEN {
      return TYPE_READ_ERR, msgLen;
    }
    assert head[..] == s[..TYPE_LEN];
    var style := TypeOf(head[..]);
    rd := ReadMsg(fd, buf, length, junk);
    if rd < 0 {
      return rd, msgLen;
    }
    return style, rd;
  }

  // ----- Writers ---------------------------------------------------------------

  /** A chunk accepted at `from` continues what was sent. */
  lemma SentMore(sent: seq<byte>, data: seq<byte>, from: nat, k: nat)
    requires from + k <= |data|
    ensures (sent + data[..from]) + data[from..][..k] == sent + data[..from + k]
  {
    assert data[..from] + data[from..][..k] == data[..from + k];
  }

  method WriteAll(fd: WriteEnd, data: seq<byte>) returns (total: int)
    modifies fd
    ensures old(fd.Reliable()) ==> fd.Reliable() && total == |data|
    ensures total >= 0 ==> total <= |data| && fd.sent == old(fd.sent) + data[..total]
    ensures total < 0 ==> exists k :: 0 <= k < |data| && fd.sent == old(fd.sent) + data[..k]
    ensures total == 0 <==> data == [] || old(fd.Stalls())
    ensures fd.plan == PlanAfter(old(fd.plan), |data|)
  {
    hide Accepted, PlanAfter, StallsFirst, WriteEnd.Reliable;
    total := 0;
    while total < |data|
      invariant 0 <= total <= |data|
      invariant fd.sent == old(fd.sent) + data[..total]
      invariant old(fd.Reliable()) ==> fd.Reliable()
      invariant total == 0 ==> fd.Stalls() == old(fd.Stalls())
      invariant total > 0 ==> !old(fd.Stalls())
      invariant PlanAfter(fd.plan, |data| - total) == PlanAfter(old(fd.plan), |data|)
      decreases |data| - total
    {
      PlanStep(fd.plan, |data| - total);
      var wt := fd.Write(data[total..]);
      if wt == 0 {
        return total;
      }
      if wt < 0 {
        return wt;
      }
      SentMore(old(fd.sent), data, total, wt);
      total := total + wt;
    }
    PlanDone(fd.plan);
    assert data[..total] == data;
  }

  /** A non-negative result means that the whole frame was sent, except when the very
      first call accepts nothing: then the length is missing. */
  method WriteMsg(fd: WriteEnd, data: seq<byte>) returns (wt: int)
    requires |data| < SIZE_LIMIT
    modifies fd
    ensures old(fd.Reliable()) ==> fd.Reliable() && wt >= 0
    ensures wt >= 0 ==>
              wt == |data| && fd.sent == old(fd.sent) + if old(fd.Stalls()) then data else MsgFrame(data)
    ensures wt < 0 ==> wt == IO_ERR || wt == LENGTH_WRITE_ERR || wt == MSG_WRITE_ERR
  {
    hide Bytes;
    var head := Bytes(|data|, SIZE_LEN);
    wt := WriteAll(fd, head);
    if wt < 0 {
      return IO_ERR;
    }
    if wt > 0 && wt != SIZE_LEN {
      return LENGTH_WRITE_ERR;
    }
    assert head[..SIZE_LEN] == head;
    if |data| > 0 {
      wt := WriteAll(fd, data);
      if wt < 0 {
        return IO_ERR;
      }
      if wt != |data| {
        return MSG_WRITE_ERR;
      }
      assert data[..wt] == data;
    } else {
      wt := 0;
    }
  }

  method WritePrompt(fd: WriteEnd, style: int, data: seq<byte>) returns (wt: int)
    requires |data| < SIZE_LIMIT && IsInt(style)
    modifies fd
    ensures old(fd.Reliable()) ==>
              fd.Reliable() && wt == |data| && fd.sent == old(fd.sent) + PromptFrame(Prompt(style, data))
    // what is missing after a success: the type, the length, or both
    ensures wt >= 0 ==>
              var noType, noLength := old(fd.Stalls()), StallsFirst(PlanAfter(old(fd.plan), TYPE_LEN));
              && wt == |data|
              && fd.sent == old(fd.sent) + (if noType then [] else TypeBytes(style))
                                         + (if noLength then data else MsgFrame(data))
    ensures wt < 0 ==> IO_ERR >= wt >= TYPE_WRITE_ERR
  {
    hide TypeBytes, MsgFrame;
    wt := WriteAll(fd, TypeBytes(style));
    if wt < 0 {
      return IO_ERR;
    }
    if wt > 0 && wt != TYPE_LEN {
      return TYPE_WRITE_ERR;
    }
    assert TypeBytes(style)[..TYPE_LEN] == TypeBytes(style);
    wt := WriteMsg(fd, data);
  }

  // ----- Many prompts ----------------------------------------------------------

  ghost predicate AllSendable(ps: seq<Prompt>, length: nat) {
    forall i :: 0 <= i < |ps| ==> IsInt(ps[i].style) && |ps[i].text| < length && |ps[i].text| < SIZE_LIMIT
  }

  lemma {:induction false} StreamSplit(ps: seq<Prompt>, n: nat)
    requires n < |ps|
    ensures Stream(ps[..n + 1]) == Stream(ps[..n]) + PromptFrame(ps[n])
    ensures Stream(ps[n..]) == PromptFrame(ps[n]) + Stream(ps[n + 1..])
    decreases n
  {
    hide PromptFrame;
    assert ps[n..][1..] == ps[n + 1..];
    if n > 0 {
      StreamSplit(ps[1..], n - 1);
      assert ps[..n][1..] == ps[1..][..n - 1] && ps[..n + 1][1..] == ps[1..][..n];
    } else {
      assert ps[..1][1..] == [];
    }
  }

  method WriteOnePrompt(fd: WriteEnd, p: Prompt)
    requires IsInt(p.style) && |p.text| < SIZE_LIMIT && fd.Reliable()
    modifies fd
    ensures fd.Reliable() && fd.sent == old(fd.sent) + PromptFrame(p)
  {
    hide PromptFrame, MsgFrame, TypeBytes, PlanAfter;
    var _ := WritePrompt(fd, p.style, p.text);
  }

  method WritePrompts(fd: WriteEnd, ps: seq<Prompt>)
    requires forall i :: 0 <= i < |ps| ==> IsInt(ps[i].style) && |ps[i].text| < SIZE_LIMIT
    requires fd.Reliable()
    modifies fd
    ensures fd.Reliable() && fd.sent == old(fd.sent) + Stream(ps)
  {
    ghost var sent, done := fd.sent, [];
    assert ps[..0] == [] && Stream(ps[..0]) == [] && ps[..|ps|] == ps && sent + done == sent;
    hide PromptFrame, Stream, WriteEnd.Reliable;
    for i := 0 to |ps|
      invariant fd.Reliable() && fd.sent == sent + done && done == Stream(ps[..i])
    {
      StreamSplit(ps, i);
      assert (sent + done) + PromptFrame(ps[i]) == sent + (done + PromptFrame(ps[i]));
      WriteOnePrompt(fd, ps[i]);
      done := done + PromptFrame(ps[i]);
    }
  }

  method ReadOnePrompt(fd: ReadEnd, ghost p: Prompt, ghost after: seq<byte>, length: nat, junk: nat)
    returns (got: Prompt)
    requires IsInt(p.style) && |p.text| < length && |p.text| < SIZE_LIMIT
    requires fd.Reliable() && fd.rest == PromptFrame(p) + after
    modifies fd
    ensures got == p && fd.Reliable() && fd.rest == after
  {
    hide PromptFrame, ParsePrompt, Complete;
    var buf := new byte[length];
    PromptRoundTrip(p, after, length, junk);
    assert (PromptFrame(p) + after)[|PromptFrame(p)|..] == after;
    var style, msgLen := ReadPrompt(fd, buf, length, junk);
    return Prompt(style, buf[..msgLen]);
  }

  /** What the stream holds once `i` prompts have been read. */
  ghost function Unread(ps: seq<Prompt>, rest: seq<byte>, i: nat): seq<byte>
    requires i <= |ps|
  {
    Stream(ps[i..]) + rest
  }

  lemma UnreadNext(ps: seq<Prompt>, rest: seq<byte>, i: nat)
    requires i < |ps|
    ensures Unread(ps, rest, i) == PromptFrame(ps[i]) + Unread(ps, rest, i + 1)
  {
    hide PromptFrame, Stream;
    StreamSplit(ps, i);
    assert (PromptFrame(ps[i]) + Stream(ps[i + 1..])) + rest == PromptFrame(ps[i]) + (Stream(ps[i + 1..]) + rest);
  }

  lemma UnreadEnds(ps: seq<Prompt>, rest: seq<byte>)
    ensures Unread(ps, rest, 0) == Stream(ps) + rest && Unread(ps, rest, |ps|) == rest
  {
    assert ps[0..] == ps && ps[|ps|..] == [] && Stream([]) == [];
  }

  method ReadPrompts(fd: ReadEnd, ghost ps: seq<Prompt>, ghost rest: seq<byte>, n: nat, length: nat, junk: nat)
    returns (got: seq<Prompt>)
    requires n == |ps| && AllSendable(ps, length) && fd.Reliable() && fd.rest == Stream(ps) + rest
    modifies fd
    ensures got == ps && fd.rest == rest
  {
    hide PromptFrame, Stream, Unread, ReadEnd.Reliable;
    got := [];
    UnreadEnds(ps, rest);
    for i := 0 to n
      invariant fd.Reliable() && got == ps[..i] && fd.rest == Unread(ps, rest, i)
    {
      UnreadNext(ps, rest, i);
      var p := ReadOnePrompt(fd, ps[i], Unread(ps, rest, i + 1), length, junk);
      got := got + [p];
    }
  }

  /** The round trip of the code itself: whatever the partial writes and the partial reads,
      any sequence of prompts arrives with types, texts and lengths, and the bytes that
      follow are untouched. */
  method SendAndReceive(ps: seq<Prompt>, rest: seq<byte>, chunksOut: seq<int>, chunksIn: seq<int>, length: nat, junk: nat)
    returns (got: seq<Prompt>, left: seq<byte>)
    requires forall i :: 0 <= i < |ps| ==> IsInt(ps[i].style) && |ps[i].text| < length && |ps[i].text| < SIZE_LIMIT
    requires (forall i :: 0 <= i < |chunksOut| ==> chunksOut[i] > 0) && (forall i :: 0 <= i < |chunksIn| ==> chunksIn[i] >= 0)
    ensures got == ps && left == rest
  {
    var w := new WriteEnd(chunksOut);
    WritePrompts(w, ps);
    assert [] + Stream(ps) == Stream(ps);
    var r := new ReadEnd(w.sent + rest, chunksIn);
    got := ReadPrompts(r, ps, rest, |ps|, length, junk);
    left := r.rest;
  }
}
