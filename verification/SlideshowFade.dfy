/** Cross-fading: every tick paints the new picture over the surface with an opacity that
    is computed from the number of the tick.  One colour channel over the reals. */
module SlideshowFade {
  import opened Options

  const N_FADE_TICKS: nat := 10

  datatype Point = Point(x: int, y: int)
  datatype Box = Box(x: int, y: int, width: int, height: int)

  type Picture = Point -> real

  /** An opaque image and where it is placed. */
  datatype Image = Image(left: int, top: int, right: int, bottom: int, pixels: Picture)

  datatype Fade = Fade(
    pat1: Option<Image>,
    pat2: Option<Image>,
    ticks: int,
    alpha: real,
    disabled: bool,
    scheduled: bool,
    background: real,
    surface: Picture)

  datatype Window = Window(width: int, height: int)

  // ----- Painting --------------------------------------------------------------

  /** A rectangle of negative width or height extends the other way. */
  predicate Between(v: int, start: int, size: int) {
    if size >= 0 then start <= v < start + size else start + size <= v < start
  }

  predicate Within(p: Point, b: Box) {
    Between(p.x, b.x, b.width) && Between(p.y, b.y, b.height)
  }

  function Blend(below: real, above: real, alpha: real): real {
    (1.0 - alpha) * below + alpha * above
  }

  predicate InImage(p: Point, im: Image) {
    im.left <= p.x < im.right && im.top <= p.y < im.bottom
  }

  function FillBox(s: Picture, b: Box, colour: real, alpha: real): Picture {
    p => if Within(p, b) then Blend(s(p), colour, alpha) else s(p)
  }

  function PaintImage(s: Picture, im: Image, alpha: real): Picture {
    p => if InImage(p, im) then Blend(s(p), im.pixels(p), alpha) else s(p)
  }

  function Top(im: Image, w: Window): Box { Box(0, 0, w.width, im.top) }
  function Left(im: Image): Box { Box(0, im.top, im.left, im.bottom - im.top) }
  function Bottom(im: Image, w: Window): Box { Box(0, im.bottom, w.width, w.height - im.bottom) }
  function Right(im: Image, w: Window): Box { Box(im.right, im.top, w.width - im.right, im.bottom - im.top) }

  function UpdateDisplay(f: Fade, w: Window): Picture {
    match f.pat2
    case Some(im) =>
      var s1 := FillBox(f.surface, Top(im, w), f.background, f.alpha);
      var s2 := FillBox(s1, Left(im), f.background, f.alpha);
      var s3 := FillBox(s2, Bottom(im, w), f.background, f.alpha);
      var s4 := FillBox(s3, Right(im, w), f.background, f.alpha);
      PaintImage(s4, im, f.alpha)
    case None =>
      match f.pat1
      case Some(im) => PaintImage(f.surface, im, 1.0)
      case None => f.surface
  }

  predicate InWindow(p: Point, w: Window) {
    0 <= p.x < w.width && 0 <= p.y < w.height
  }

  /** What the window shows once the fade is over. */
  function Target(im: Image, background: real, p: Point): real {
    if InImage(p, im) then im.pixels(p) else background
  }

  /** The image and the four borders tile the window: every pixel lies in exactly one of
      the five, whatever the sizes of window and image. */
  lemma BordersTile(im: Image, w: Window, p: Point)
    requires im.left <= im.right && im.top <= im.bottom && InWindow(p, w)
    ensures var inside := InImage(p, im);
            var t, l, b, r := Within(p, Top(im, w)), Within(p, Left(im)), Within(p, Bottom(im, w)), Within(p, Right(im, w));
            && (inside || t || l || b || r)
            && (inside ==> !t && !l && !b && !r) && (t ==> !l && !b && !r) && (l ==> !b && !r) && (b ==> !r)
  {
  }

  /** So painting all five blends every pixel of the window exactly once. */
  lemma PaintedOnce(f: Fade, w: Window, p: Point)
    requires f.pat2.Some? && f.pat2.value.left <= f.pat2.value.right && f.pat2.value.top <= f.pat2.value.bottom
    requires InWindow(p, w)
    ensures UpdateDisplay(f, w)(p) == Blend(f.surface(p), Target(f.pat2.value, f.background, p), f.alpha)
  {
    BordersTile(f.pat2.value, w, p);
    hide Blend, Within;
  }

  // ----- Ticks -----------------------------------------------------------------

  function FinishFade(f: Fade): Fade {
    f.(pat1 := f.pat2, pat2 := None, scheduled := true)
  }

  function TickAlpha(ticks: int): real
    requires ticks <= N_FADE_TICKS
  {
    var shown := (ticks - 1) as real / N_FADE_TICKS as real;
    var wanted := ticks as real / N_FADE_TICKS as real;
    1.0 - (1.0 - wanted) / (1.0 - shown)
  }

  function DrawIter(f: Fade, w: Window, slow: bool): Fade
    requires f.ticks < N_FADE_TICKS
  {
    if f.pat2.None? then f
    else if f.disabled then
      var f1 := f.(alpha := 1.0);
      FinishFade(f1.(surface := UpdateDisplay(f1, w)))
    else
      var f1 := f.(ticks := f.ticks + 1, alpha := TickAlpha(f.ticks + 1));
      var f2 := f1.(surface := UpdateDisplay(f1, w));
      var f3 := if slow then f2.(ticks := N_FADE_TICKS - 1, disabled := true) else f2;
      if f3.ticks >= N_FADE_TICKS then FinishFade(f3) else f3
  }

  /** C's division by two truncates. */
  function Half(n: int): int {
    if n >= 0 then n / 2 else -((-n) / 2)
  }

  function StartFade(f: Fade, w: Window, pixbuf: Picture, width: nat, height: nat): Fade {
    var x, y := Half(w.width - width), Half(w.height - height);
    f.(pat2 := Some(Image(x, y, x + width, y + height, pixbuf)), ticks := 0)
  }

  /** Of `room` pixels half are in front, rounded towards zero. */
  predicate Halved(front: int, room: int) {
    if room >= 0 then 0 <= room - 2 * front <= 1 else -1 <= room - 2 * front <= 0
  }

  /** The picture in its own size, in the middle of the window. */
  ghost predicate InTheMiddle(im: Image, w: Window, pixbuf: Picture, width: nat, height: nat) {
    && im.right - im.left == width && im.bottom - im.top == height && im.pixels == pixbuf
    && Halved(im.left, w.width - width) && Halved(im.top, w.height - height)
  }

  // ----- Exactness -------------------------------------------------------------

  function Mix(before: real, after: real, k: int): real {
    (1.0 - k as real / 10.0) * before + (k as real / 10.0) * after
  }

  lemma TickAlphaIs(k: int)
    requires 1 <= k <= N_FADE_TICKS
    ensures (1.0 - TickAlpha(k)) * (11 - k) as real == (10 - k) as real
  {
    var a := (11 - k) as real;
    var b := (10 - k) as real;
    assert 1.0 - (k - 1) as real / 10.0 == a / 10.0;
    assert 1.0 - k as real / 10.0 == b / 10.0;
    assert 1.0 - TickAlpha(k) == (b / 10.0) / (a / 10.0);
    Quotient(a / 10.0, b / 10.0);
  }

  lemma Quotient(a: real, b: real)
    requires a > 0.0
    ensures (b / a) * a == b
  {
  }

  /** One more tick moves the mixture on by one tenth. */
  lemma MixStep(before: real, after: real, k: int)
    requires 1 <= k <= N_FADE_TICKS
    ensures Blend(Mix(before, after, k - 1), after, TickAlpha(k)) == Mix(before, after, k)
  {
    var q := 1.0 - TickAlpha(k);
    TickAlphaIs(k);
    hide TickAlpha;
    var a := (11 - k) as real;
    assert Mix(before, after, k - 1) == after + (a / 10.0) * (before - after);
    assert Mix(before, after, k) == after + ((10 - k) as real / 10.0) * (before - after);
    Fold(q, a, before - after);
    assert q * Mix(before, after, k - 1) == q * after + q * ((a / 10.0) * (before - after));
  }

  lemma Fold(q: real, a: real, d: real)
    ensures q * ((a / 10.0) * d) == (q * a) / 10.0 * d
  {
    assert q * ((a / 10.0) * d) == (q * (a / 10.0)) * d;
  }

  /** The window shows `k` tenths of the new picture over `before`. */
  ghost predicate ShowsTick(f: Fade, w: Window, before: Picture, im: Image, k: int) {
    forall p :: InWindow(p, w) ==> f.surface(p) == Mix(before(p), Target(im, f.background, p), k)
  }

  ghost predicate ShowsAll(f: Fade, w: Window, im: Image) {
    forall p :: InWindow(p, w) ==> f.surface(p) == Target(im, f.background, p)
  }

  predicate Placed(im: Image) {
    im.left <= im.right && im.top <= im.bottom
  }

  lemma UndisturbedTick(f: Fade, w: Window, before: Picture, im: Image)
    requires 0 <= f.ticks < N_FADE_TICKS && f.pat2 == Some(im) && Placed(im) && !f.disabled
    requires ShowsTick(f, w, before, im, f.ticks)
    ensures forall slow :: ShowsTick(DrawIter(f, w, slow), w, before, im, f.ticks + 1)
  {
    var k := f.ticks + 1;
    var f1 := f.(ticks := k, alpha := TickAlpha(k));
    forall p | InWindow(p, w)
      ensures UpdateDisplay(f1, w)(p) == Mix(before(p), Target(im, f.background, p), k)
    {
      PaintedOnce(f1, w, p);
      MixStep(before(p), Target(im, f.background, p), k);
    }
    hide UpdateDisplay, TickAlpha, Mix, Target;
  }

  lemma DisabledTick(f: Fade, w: Window, im: Image)
    requires f.ticks < N_FADE_TICKS && f.pat2 == Some(im) && Placed(im) && f.disabled
    ensures forall slow :: ShowsAll(DrawIter(f, w, slow), w, im) && DrawIter(f, w, slow).pat2.None?
  {
    var f1 := f.(alpha := 1.0);
    forall p | InWindow(p, w)
      ensures UpdateDisplay(f1, w)(p) == Target(im, f.background, p)
    {
      PaintedOnce(f1, w, p);
    }
    hide UpdateDisplay, TickAlpha, Target;
  }

  /** `slows` tells for every call whether the frame rate was found too low. */
  function Draws(f: Fade, w: Window, slows: seq<bool>): Fade
    decreases |slows|
  {
    if slows == [] || f.ticks >= N_FADE_TICKS then f else Draws(DrawIter(f, w, slows[0]), w, slows[1..])
  }

  /** Where a fade stands: after an undisturbed tick, or disabled and about to jump. */
  ghost predicate Underway(f: Fade, w: Window, before: Picture, im: Image) {
    && 0 <= f.ticks < N_FADE_TICKS && f.pat2 == Some(im) && Placed(im)
    && (!f.disabled ==> ShowsTick(f, w, before, im, f.ticks))
  }

  ghost predicate Over(f: Fade, w: Window, im: Image) {
    f.pat2 == None && f.pat1 == Some(im) && f.scheduled && ShowsAll(f, w, im)
  }

  lemma LastTick(f: Fade, w: Window, before: Picture, im: Image)
    requires ShowsTick(f, w, before, im, N_FADE_TICKS)
    ensures ShowsAll(f, w, im)
  {
    forall p | InWindow(p, w)
      ensures f.surface(p) == Target(im, f.background, p)
    {
      assert Mix(before(p), Target(im, f.background, p), 10) == Target(im, f.background, p);
    }
  }

  lemma TickGoesOn(f: Fade, w: Window, before: Picture, im: Image, slow: bool)
    requires Underway(f, w, before, im)
    ensures var r := DrawIter(f, w, slow);
            || Over(r, w, im)
            || (Underway(r, w, before, im) && !f.disabled
                && (r.disabled || r.ticks == f.ticks + 1))
  {
    var r := DrawIter(f, w, slow);
    if f.disabled {
      DisabledTick(f, w, im);
      hide ShowsAll;
    } else {
      UndisturbedTick(f, w, before, im);
      if r.pat2.None? {
        LastTick(r, w, before, im);
      }
      hide ShowsTick, ShowsAll;
    }
  }

  /** How many calls a fade can still take. */
  function Remaining(f: Fade): nat
    requires f.ticks <= N_FADE_TICKS
  {
    if f.disabled then 1 else N_FADE_TICKS - f.ticks + 1
  }

  /** Every fade ends, at exactly the new picture, within N + 1 calls and for every history
      of frame rates. */
  lemma {:induction false} FadeEnds(f: Fade, w: Window, before: Picture, im: Image, slows: seq<bool>)
    requires Underway(f, w, before, im) && |slows| >= Remaining(f)
    ensures exists n :: 0 <= n <= Remaining(f) && Over(Draws(f, w, slows[..n]), w, im)
    decreases |slows|
  {
    var r := DrawIter(f, w, slows[0]);
    TickGoesOn(f, w, before, im, slows[0]);
    hide DrawIter, ShowsAll, ShowsTick;
    assert slows[..1] == [slows[0]];
    if Over(r, w, im) {
      assert slows[..1][1..] == [];
      assert Draws(r, w, []) == r;
      assert Draws(f, w, slows[..1]) == r;
    } else {
      FadeEnds(r, w, before, im, slows[1..]);
      var n :| 0 <= n <= Remaining(r) && Over(Draws(r, w, slows[1..][..n]), w, im);
      assert slows[..n + 1][1..] == slows[1..][..n];
      assert Draws(f, w, slows[..n + 1]) == Draws(r, w, slows[1..][..n]);
    }
  }

  function Steady(k: nat): seq<bool> {
    seq(k, _ => false)
  }

  lemma {:induction false} ExactTicks(f: Fade, w: Window, before: Picture, im: Image, k: nat)
    requires Underway(f, w, before, im) && !f.disabled && f.ticks + k <= N_FADE_TICKS
    ensures ShowsTick(Draws(f, w, Steady(k)), w, before, im, f.ticks + k)
    decreases k
  {
    if k > 0 {
      var r := DrawIter(f, w, false);
      assert Steady(k)[1..] == Steady(k - 1);
      assert !Steady(k)[0];
      UndisturbedTick(f, w, before, im);
      hide ShowsTick, UpdateDisplay, TickAlpha;
      if k > 1 {
        ExactTicks(r, w, before, im, k - 1);
      }
    }
  }

  /** Fade exactness: the picture is put into the middle of the window, and after tick `k` of
      a fade that no slow frame disturbs every pixel of the window is (1 - k/10) of what it
      was when the fade started plus k/10 of the new picture. */
  lemma TickShowsItsShare(f: Fade, w: Window, pixbuf: Picture, width: nat, height: nat, k: nat) returns (im: Image)
    requires !f.disabled && k <= N_FADE_TICKS
    ensures InTheMiddle(im, w, pixbuf, width, height)
    ensures ShowsTick(Draws(StartFade(f, w, pixbuf, width, height), w, Steady(k)), w, f.surface, im, k)
  {
    var g := StartFade(f, w, pixbuf, width, height);
    im := g.pat2.value;
    assert ShowsTick(g, w, f.surface, im, 0);
    hide ShowsTick, Draws;
    ExactTicks(g, w, f.surface, im, k);
  }

  /** A fade starts with nothing of the new picture, and ends within eleven calls with the
      picture in the middle of the window. */
  lemma FadeFromStart(f: Fade, w: Window, pixbuf: Picture, width: nat, height: nat, slows: seq<bool>) returns (im: Image)
    requires |slows| >= N_FADE_TICKS + 1
    ensures InTheMiddle(im, w, pixbuf, width, height)
    ensures var g := StartFade(f, w, pixbuf, width, height);
            && Underway(g, w, f.surface, im)
            && exists n :: 0 <= n <= N_FADE_TICKS + 1 && Over(Draws(g, w, slows[..n]), w, im)
  {
    var g := StartFade(f, w, pixbuf, width, height);
    im := g.pat2.value;
    assert ShowsTick(g, w, f.surface, im, 0);
    hide ShowsTick, Draws, Over;
    FadeEnds(g, w, f.surface, im, slows);
  }
}
