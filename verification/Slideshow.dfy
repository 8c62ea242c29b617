/** The slideshow widget's main-thread callbacks, updating the widget in place; each is
    proved to take the step that SlideshowFade gives for it. */
module Slideshow {
  import opened Options
  import opened SlideshowFade

  datatype Loaded = Loaded(pixels: Picture, width: nat, height: nat)

  function Process(f: Fade, w: Window, image: Option<Loaded>): Fade {
    match image
    case None => f.(scheduled := true)
    case Some(im) => StartFade(f, w, im.pixels, im.width, im.height)
  }

  function ProcessAll(f: Fade, w: Window, images: seq<Option<Loaded>>): Fade
    decreases |images|
  {
    if images == [] then f else ProcessAll(Process(f, w, images[0]), w, images[1..])
  }

  class SlideshowWidget {
    var pat1: Option<Image>
    var pat2: Option<Image>
    var ticks: int
    var alpha: real
    var disabled: bool
    var updateImage: bool            // update_image_id is set
    var background: real
    var surface: Picture
    var window: Window
    var results: seq<Option<Loaded>>
    var pullId: bool

    constructor (window: Window, background: real, surface: Picture)
      ensures View() == Fade(None, None, 0, 0.0, false, false, background, surface)
      ensures this.window == window && results == [] && !pullId && Valid()
    {
      pat1, pat2, ticks, alpha, disabled, updateImage := None, None, 0, 0.0, false, false;
      this.background, this.surface, this.window := background, surface, window;
      results, pullId := [], false;
    }

    function View(): Fade
      reads this
    {
      Fade(pat1, pat2, ticks, alpha, disabled, updateImage, background, surface)
    }

    /** While a fade is on, its tick is below the last one, so no opacity divides by zero. */
    predicate Valid()
      reads this
    {
      pat2.Some? ==> 0 <= ticks < N_FADE_TICKS && Placed(pat2.value)
    }

    method StartNewLoad()
      modifies this`updateImage
      ensures updateImage
    {
      if !updateImage {
        updateImage := true;
      }
    }

    method BeginFade(image: Loaded)
      modifies this
      ensures View() == StartFade(old(View()), window, image.pixels, image.width, image.height)
      ensures Valid() && window == old(window) && results == old(results) && pullId == old(pullId)
    {
      var x, y := Half(window.width - image.width), Half(window.height - image.height);
      pat2 := Some(Image(x, y, x + image.width, y + image.height, image.pixels));
      ticks := 0;
    }

    method EndFade()
      modifies this
      ensures View() == FinishFade(old(View()))
      ensures Valid() && window == old(window) && results == old(results) && pullId == old(pullId)
    {
      pat1 := pat2;
      pat2 := None;
      StartNewLoad();
    }

    method Repaint()
      modifies this`surface
      ensures surface == UpdateDisplay(old(View()), window)
    {
      if pat2.Some? {
        var im := pat2.value;
        surface := FillBox(surface, Top(im, window), background, alpha);
        surface := FillBox(surface, Left(im), background, alpha);
        surface := FillBox(surface, Bottom(im, window), background, alpha);
        surface := FillBox(surface, Right(im, window), background, alpha);
        surface := PaintImage(surface, im, alpha);
      } else if pat1.Some? {
        surface := PaintImage(surface, pat1.value, 1.0);
      }
    }

    /** `slow` is whether fewer than three frames a second were drawn so far. */
    method DrawTick(slow: bool)
      requires Valid()
      modifies this
      ensures old(pat2.Some?) ==> View() == DrawIter(old(View()), window, slow)
      ensures old(pat2.None?) ==> View() == old(View())
      ensures Valid() && window == old(window) && results == old(results) && pullId == old(pullId)
    {
      hide UpdateDisplay;
      if pat2.None? {
        return;
      }
      if disabled {
        alpha := 1.0;
        Repaint();
        EndFade();
        return;
      }
      ticks := ticks + 1;
      alpha := TickAlpha(ticks);
      Repaint();
      if slow {
        ticks := N_FADE_TICKS - 1;
        disabled := true;
      }
      if ticks >= N_FADE_TICKS {
        EndFade();
      }
    }

    /** The pull callback empties the queue; it is only ever called with a result in it. */
    method PullResults()
      requires Valid() && results != []
      modifies this
      ensures View() == ProcessAll(old(View()), window, old(results))
      ensures results == [] && !pullId && Valid() && window == old(window)
    {
      while results != []
        invariant Valid() && window == old(window)
        invariant ProcessAll(View(), window, results) == ProcessAll(old(View()), window, old(results))
        decreases |results|
      {
        var image := results[0];
        results := results[1..];
        if image.Some? {
          BeginFade(image.value);
        } else {
          StartNewLoad();
        }
      }
      pullId := false;
    }
  }
}
