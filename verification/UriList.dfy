/** Parsing text/uri-list (section 5 of RFC 2483): one URI per line, comment lines start
    with '#', white space around a URI is dropped, LF is accepted besides CRLF. */
module UriList {
  import opened Options

  // ----- Pieces of a line ------------------------------------------------------

  predicate IsSpace(c: char) {
    c == ' ' || c == '\t' || c == '\n' || c == '\r' || c == '\U{000C}'
  }

  predicate EndsLine(c: char) {
    c == '\n' || c == '\r'
  }

  function SkipSpace(s: string): (t: string)
    ensures |t| <= |s|
  {
    if s != [] && IsSpace(s[0]) then SkipSpace(s[1..]) else s
  }

  function LineOf(s: string): string {
    if s == [] || EndsLine(s[0]) then [] else [s[0]] + LineOf(s[1..])
  }

  function TrimEnd(s: string): string {
    if s != [] && IsSpace(s[|s| - 1]) then TrimEnd(s[..|s| - 1]) else s
  }

  function AfterNewline(s: string): (r: Option<string>)
    ensures r.Some? ==> |r.value| < |s|
  {
    if s == [] then None else if s[0] == '\n' then Some(s[1..]) else AfterNewline(s[1..])
  }

  predicate IsComment(s: string) {
    s != [] && s[0] == '#'
  }

  /** Where the parser looks once leading white space, even newlines, is skipped. */
  function Body(s: string): string {
    if IsComment(s) then s else SkipSpace(s)
  }

  function Here(s: string): seq<string> {
    if IsComment(s) then []
    else
      var l := LineOf(SkipSpace(s));
      if l == [] then [] else [TrimEnd(l)]
  }

  function Parse(s: string): seq<string>
    decreases |s|
  {
    match AfterNewline(Body(s))
    case None => Here(s)
    case Some(rest) => Here(s) + Parse(rest)
  }

  // ----- What the pieces are ---------------------------------------------------

  lemma {:induction false} SkipSpaceIs(s: string)
    ensures var t := SkipSpace(s);
            t == s[|s| - |t|..] && (t != [] ==> !IsSpace(t[0]))
  {
    if s != [] && IsSpace(s[0]) {
      SkipSpaceIs(s[1..]);
    }
  }

  lemma {:induction false} LineOfIs(s: string)
    ensures LineOf(s) <= s
    ensures forall i :: 0 <= i < |LineOf(s)| ==> !EndsLine(LineOf(s)[i])
  {
    if s != [] && !EndsLine(s[0]) {
      LineOfIs(s[1..]);
    }
  }

  lemma {:induction false} TrimEndIs(s: string)
    ensures var t := TrimEnd(s);
            t <= s && (t != [] ==> !IsSpace(t[|t| - 1])) && (s != [] && !IsSpace(s[0]) ==> t != [])
  {
    if s != [] && IsSpace(s[|s| - 1]) {
      TrimEndIs(s[..|s| - 1]);
    }
  }

  lemma {:induction false} AfterNewlineIs(s: string)
    ensures var r := AfterNewline(s);
            r.Some? ==> r.value == s[|s| - |r.value|..]
  {
    if s != [] && s[0] != '\n' {
      AfterNewlineIs(s[1..]);
    }
  }

  // ----- The loop --------------------------------------------------------------

  function Reversed(s: seq<string>): seq<string> {
    if s == [] then [] else Reversed(s[1..]) + [s[0]]
  }

  lemma {:induction false} LineOfUpTo(s: string, n: nat)
    requires n <= |s| && (forall i :: 0 <= i < n ==> !EndsLine(s[i])) && (n < |s| ==> EndsLine(s[n]))
    ensures LineOf(s) == s[..n]
  {
    if n > 0 {
      LineOfUpTo(s[1..], n - 1);
    }
  }

  lemma {:induction false} TrimEndUpTo(s: string, n: nat)
    requires n <= |s| && (forall i :: n <= i < |s| ==> IsSpace(s[i])) && (n > 0 ==> !IsSpace(s[n - 1]))
    ensures TrimEnd(s) == s[..n]
    decreases |s|
  {
    if n < |s| {
      TrimEndUpTo(s[..|s| - 1], n);
    }
  }

  lemma {:induction false} AfterNewlineAt(s: string, n: nat)
    requires n <= |s| && (forall i :: 0 <= i < n ==> s[i] != '\n') && (n < |s| ==> s[n] == '\n')
    ensures AfterNewline(s) == if n < |s| then Some(s[n + 1..]) else None
  {
    if n > 0 {
      AfterNewlineAt(s[1..], n - 1);
    }
  }

  method FindLineEnd(s: string, p: nat) returns (q: nat)
    requires p <= |s|
    ensures p <= q <= |s| && LineOf(s[p..]) == s[p..q]
  {
    hide LineOf;
    q := p;
    while q < |s| && s[q] != '\n' && s[q] != '\r'
      invariant p <= q <= |s|
      invariant forall i :: p <= i < q ==> !EndsLine(s[i])
    {
      q := q + 1;
    }
    LineOfUpTo(s[p..], q - p);
    assert s[p..][..q - p] == s[p..q];
  }

  method TrimBack(s: string, p: nat, end: nat) returns (q: nat)
    requires p < end <= |s| && !IsSpace(s[p])
    ensures p <= q < end && TrimEnd(s[p..end]) == s[p..q + 1]
  {
    hide TrimEnd;
    q := end - 1;
    while q > p && IsSpace(s[q])
      invariant p <= q < end
      invariant forall i :: q < i < end ==> IsSpace(s[i])
      decreases q
    {
      q := q - 1;
    }
    TrimEndUpTo(s[p..end], q - p + 1);
    assert s[p..end][..q - p + 1] == s[p..q + 1];
  }

  /** One URI: from `p`, which is not on white space, up to the end of the line without
      the white space in front of it. */
  method TakeUri(s: string, p: nat) returns (uris: seq<string>)
    requires p <= |s| && (p < |s| ==> !IsSpace(s[p]))
    ensures var l := LineOf(s[p..]);
            uris == if l == [] then [] else [TrimEnd(l)]
  {
    hide LineOf, TrimEnd;
    var q := FindLineEnd(s, p);
    if q > p {
      q := TrimBack(s, p, q);
      return [s[p..q + 1]];
    }
    return [];
  }

  method FindNewline(s: string, p: nat) returns (n: nat)
    requires p <= |s|
    ensures p <= n <= |s|
    ensures AfterNewline(s[p..]) == if n < |s| then Some(s[n + 1..]) else None
  {
    n := p;
    while n < |s| && s[n] != '\n'
      invariant p <= n <= |s|
      invariant forall i :: p <= i < n ==> s[i] != '\n'
    {
      n := n + 1;
    }
    AfterNewlineAt(s[p..], n - p);
    assert n < |s| ==> s[p..][n - p + 1..] == s[n + 1..];
  }

  method UriListParse(s: string) returns (uris: seq<string>)
    ensures uris == Parse(s)
  {
    hide Here, Body, AfterNewline;
    var p := 0;
    var more := true;
    var result: seq<string> := [];
    assert s[0..] == s;
    while more
      invariant p <= |s|
      invariant Reversed(result) + (if more then Parse(s[p..]) else []) == Parse(s)
      decreases more, |s| - p
    {
      ghost var t := s[p..];
      var found, next := OneLine(s, p);
      ghost var before := result;
      if found != [] {
        result := [found[0]] + result;
        assert result[1..] == before;
      }
      assert Reversed(result) == Reversed(before) + found;
      if next <= |s| {
        assert Parse(t) == Here(t) + Parse(s[next..]);
        p := next;
      } else {
        assert Parse(t) == Here(t);
        more := false;
      }
    }
    uris := Reverse(result);
  }

  method SkipSpaces(s: string, p: nat) returns (q: nat)
    requires p <= |s|
    ensures p <= q <= |s| && SkipSpace(s[p..]) == s[q..] && (q < |s| ==> !IsSpace(s[q]))
  {
    q := p;
    while q < |s| && IsSpace(s[q])
      invariant p <= q <= |s|
      invariant SkipSpace(s[q..]) == SkipSpace(s[p..])
    {
      assert s[q..][1..] == s[q + 1..];
      q := q + 1;
    }
    assert q < |s| ==> s[q..][0] == s[q];
  }

  /** One round of the loop: at most one URI, and where the next line starts (past the end
      if there is none). */
  method OneLine(s: string, p: nat) returns (found: seq<string>, next: nat)
    requires p <= |s|
    ensures found == Here(s[p..]) && |found| <= 1
    ensures p < next
    ensures AfterNewline(Body(s[p..])) == if next <= |s| then Some(s[next..]) else None
  {
    hide LineOf, TrimEnd, SkipSpace, AfterNewline;
    var q := p;
    found := [];
    if p == |s| || s[p] != '#' {
      q := SkipSpaces(s, p);
      found := TakeUri(s, q);
    }
    assert Body(s[p..]) == s[q..] && found == Here(s[p..]);
    hide Body, Here, IsComment, IsSpace;
    var n := FindNewline(s, q);
    next := n + 1;
  }

  method Reverse(l: seq<string>) returns (r: seq<string>)
    ensures r == Reversed(l)
  {
    r := [];
    var i := |l|;
    while i > 0
      invariant 0 <= i <= |l|
      invariant r == Reversed(l[i..])
    {
      i := i - 1;
      assert l[i..][1..] == l[i + 1..];
      r := r + [l[i]];
    }
    assert l[0..] == l;
  }

  // ----- Every input -----------------------------------------------------------

  predicate Trimmed(u: string) {
    u != [] && !IsSpace(u[0]) && !IsSpace(u[|u| - 1])
  }

  predicate OneLiner(u: string) {
    forall i :: 0 <= i < |u| ==> !EndsLine(u[i])
  }

  ghost predicate Substring(u: string, s: string) {
    exists i, j :: 0 <= i <= j <= |s| && u == s[i..j]
  }

  lemma HereIsClean(s: string, u: string)
    requires u in Here(s)
    ensures Trimmed(u) && OneLiner(u) && Substring(u, s)
  {
    var t := SkipSpace(s);
    var l := LineOf(t);
    assert u == TrimEnd(l) && l != [];
    hide SkipSpace, LineOf, TrimEnd, Here;
    SkipSpaceIs(s);
    LineOfIs(t);
    TrimEndIs(l);
    hide IsSpace, EndsLine;
    var k := |s| - |t|;
    assert s[k..k + |u|] == s[k..][..|u|];
  }

  lemma SubstringOfRest(u: string, rest: string, t: string, s: string)
    requires Substring(u, rest) && |rest| <= |t| <= |s|
    requires rest == t[|t| - |rest|..] && t == s[|s| - |t|..]
    ensures Substring(u, s)
  {
    var i, j :| 0 <= i <= j <= |rest| && u == rest[i..j];
    var k := |s| - |rest|;
    assert s[k..] == rest;
    assert u == s[k + i..k + j];
  }

  /** Whatever the input, every result is a non-empty, trimmed piece of one line of it. */
  lemma {:induction false} ResultsAreClean(s: string, u: string)
    requires u in Parse(s)
    ensures Trimmed(u) && OneLiner(u) && Substring(u, s)
    decreases |s|
  {
    if u in Here(s) {
      HereIsClean(s, u);
    } else {
      var rest := AfterNewline(Body(s)).value;
      ResultsAreClean(rest, u);
      hide Parse, Here, AfterNewline, SkipSpace, Trimmed, OneLiner, Substring;
      SkipSpaceIs(s);
      AfterNewlineIs(Body(s));
      SubstringOfRest(u, rest, Body(s), s);
    }
  }

  // ----- Round trip ------------------------------------------------------------

  datatype Line = Uri(text: string, crlf: bool) | Comment(text: string, crlf: bool)

  predicate Printable(l: Line) {
    match l
    case Uri(u, _) => Trimmed(u) && OneLiner(u) && u[0] != '#'
    case Comment(text, _) => '\n' !in text
  }

  function Eol(crlf: bool): string {
    if crlf then "\r\n" else "\n"
  }

  function PrintLine(l: Line): string {
    (if l.Uri? then l.text else "#" + l.text) + Eol(l.crlf)
  }

  function Print(ls: seq<Line>): string {
    if ls == [] then "" else PrintLine(ls[0]) + Print(ls[1..])
  }

  function Uris(ls: seq<Line>): seq<string> {
    if ls == [] then [] else (if ls[0].Uri? then [ls[0].text] else []) + Uris(ls[1..])
  }

  lemma NoSkip(s: string)
    requires s != [] ==> !IsSpace(s[0])
    ensures SkipSpace(s) == s
  {
  }

  lemma UriHere(u: string, rest: string)
    requires Trimmed(u) && OneLiner(u) && u[0] != '#'
    requires rest == [] || EndsLine(rest[0])
    ensures Here(u + rest) == [u] && Body(u + rest) == u + rest
  {
    NoSkip(u + rest);
    LineOfUpTo(u + rest, |u|);
    assert (u + rest)[..|u|] == u;
    TrimEndUpTo(u, |u|);
    assert u[..|u|] == u;
  }

  lemma LineParses(l: Line, rest: string)
    requires Printable(l)
    ensures Parse(PrintLine(l) + rest) == (if l.Uri? then [l.text] else []) + Parse(rest)
  {
    var text := if l.Uri? then l.text else "#" + l.text;
    var s := text + (Eol(l.crlf) + rest);
    assert s == PrintLine(l) + rest;
    var n := |text| + |Eol(l.crlf)| - 1;
    assert EndsLine('\n') && '\n' !in text;
    assert forall i :: 0 <= i < |text| ==> s[i] == text[i] && s[i] != '\n';
    AfterNewlineAt(s, n);
    assert s[n + 1..] == rest;
    if l.Uri? {
      UriHere(l.text, Eol(l.crlf) + rest);
    } else {
      assert s[0] == '#';
    }
    hide Here, Body, AfterNewline;
  }

  /** Printing URIs, with comment lines among them and LF or CRLF at each line's end (the
      last line may lack it), and parsing the result gives the URIs back in order. */
  lemma {:induction false} RoundTrip(ls: seq<Line>, last: string)
    requires forall i :: 0 <= i < |ls| ==> Printable(ls[i])
    requires last == [] || (Trimmed(last) && OneLiner(last) && last[0] != '#')
    ensures Parse(Print(ls) + last) == Uris(ls) + if last == [] then [] else [last]
  {
    hide Parse, PrintLine, Printable, Trimmed, OneLiner;
    if ls == [] {
      assert Print(ls) + last == last;
      LastLine(last);
    } else {
      assert Print(ls) + last == PrintLine(ls[0]) + (Print(ls[1..]) + last);
      LineParses(ls[0], Print(ls[1..]) + last);
      RoundTrip(ls[1..], last);
    }
  }

  lemma LastLine(last: string)
    requires last == [] || (Trimmed(last) && OneLiner(last) && last[0] != '#')
    ensures Parse(last) == if last == [] then [] else [last]
  {
    if last != [] {
      UriHere(last, "");
      assert last + "" == last;
      assert forall i :: 0 <= i < |last| ==> !EndsLine(last[i]);
      AfterNewlineAt(last, |last|);
    }
  }

  // ----- Blank lines -----------------------------------------------------------

  lemma {:induction false} SkipAll(blank: string, rest: string)
    requires forall i :: 0 <= i < |blank| ==> IsSpace(blank[i])
    requires rest == [] || !IsSpace(rest[0])
    ensures SkipSpace(blank + rest) == rest
  {
    if blank == [] {
      assert blank + rest == rest;
    } else {
      SkipAll(blank[1..], rest);
      assert (blank + rest)[1..] == blank[1..] + rest;
    }
  }

  lemma BlankBody(blank: string, rest: string)
    requires blank != [] && forall i :: 0 <= i < |blank| ==> IsSpace(blank[i])
    requires rest == [] || !IsSpace(rest[0])
    ensures Body(blank + rest) == rest == Body(rest)
    ensures Here(blank + rest) == if IsComment(rest) then [TrimEnd(LineOf(rest))] else Here(rest)
    ensures IsComment(rest) ==> Here(rest) == []
  {
    var s := blank + rest;
    assert s[0] == blank[0] && !IsComment(s);
    SkipAll(blank, rest);
    NoSkip(rest);
    if IsComment(rest) {
      assert LineOf(rest) != [];
    }
    hide SkipSpace, LineOf, TrimEnd;
  }

  function Tail(s: string): seq<string> {
    match AfterNewline(s)
    case None => []
    case Some(rest) => Parse(rest)
  }

  lemma ParseTail(s: string)
    ensures Parse(s) == Here(s) + Tail(Body(s))
  {
    hide Here, Body, AfterNewline;
  }

  /** Skipping white space crosses line ends: a blank line changes nothing unless a comment
      follows it; then, and only then, the comment is taken for a URI. */
  lemma BlankLines(blank: string, rest: string)
    requires blank != [] && forall i :: 0 <= i < |blank| ==> IsSpace(blank[i])
    requires rest == [] || !IsSpace(rest[0])
    ensures Parse(blank + rest) == Parse(rest) <==> !IsComment(rest)
    ensures IsComment(rest) ==> Parse(blank + rest) == [TrimEnd(LineOf(rest))] + Parse(rest)
  {
    BlankBody(blank, rest);
    ParseTail(blank + rest);
    ParseTail(rest);
    hide *;
    if Here(rest) == [] {
      assert [] + Tail(rest) == Tail(rest);
      assert |[TrimEnd(LineOf(rest))] + Tail(rest)| == 1 + |Tail(rest)|;
    }
  }
}
