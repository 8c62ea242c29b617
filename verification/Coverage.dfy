/** Where the windows go when monitors overlap: each window covers the extents of what is
    left of its monitor once the earlier monitors are taken away. */
module Coverage {

  datatype Point = Point(x: int, y: int)
  datatype Rect = Rect(x: int, y: int, width: nat, height: nat)

  /** A display's monitor; distinct monitors may have the same geometry. */
  datatype Monitor = Monitor(id: nat, geometry: Rect)

  predicate In(p: Point, r: Rect) {
    r.x <= p.x < r.x + r.width && r.y <= p.y < r.y + r.height
  }

  function Points(r: Rect): set<Point> {
    set x, y | r.x <= x < r.x + r.width && r.y <= y < r.y + r.height :: Point(x, y)
  }

  lemma InPoints(p: Point, r: Rect)
    ensures p in Points(r) <==> In(p, r)
  {
  }

  predicate Touches(region: set<Point>, r: Rect) {
    && (exists p :: p in region && p.x == r.x)
    && (exists p :: p in region && p.x == r.x + r.width - 1)
    && (exists p :: p in region && p.y == r.y)
    && (exists p :: p in region && p.y == r.y + r.height - 1)
  }

  /** The smallest rectangle around a region; the empty one around nothing. */
  predicate IsExtents(r: Rect, region: set<Point>) {
    if region == {} then r.width == 0 && r.height == 0
    else (forall p :: p in region ==> In(p, r)) && Touches(region, r)
  }

  function Grow(r: Rect, p: Point): Rect
    requires r.width > 0 && r.height > 0
  {
    var x1, y1 := if p.x < r.x then p.x else r.x, if p.y < r.y then p.y else r.y;
    var x2 := if p.x >= r.x + r.width then p.x + 1 else r.x + r.width;
    var y2 := if p.y >= r.y + r.height then p.y + 1 else r.y + r.height;
    Rect(x1, y1, x2 - x1, y2 - y1)
  }

  lemma GrowKeeps(r: Rect, region: set<Point>, p: Point)
    requires region != {} && r.width > 0 && r.height > 0 && IsExtents(r, region)
    ensures IsExtents(Grow(r, p), region + {p})
  {
  }

  method Extents(region: set<Point>) returns (r: Rect)
    ensures IsExtents(r, region)
  {
    if region == {} {
      return Rect(0, 0, 0, 0);
    }
    var p :| p in region;
    r := Rect(p.x, p.y, 1, 1);
    var left := region - {p};
    ghost var done := {p};
    assert p in done;
    while left != {}
      invariant left + done == region && left !! done && done != {}
      invariant r.width > 0 && r.height > 0 && IsExtents(r, done)
      decreases left
    {
      var q :| q in left;
      GrowKeeps(r, done, q);
      r := Grow(r, q);
      left := left - {q};
      done := done + {q};
    }
    assert done == region;
  }

  // ----- The region outside ----------------------------------------------------

  /** The place of a monitor in the display's list. */
  function PlaceOf(monitors: seq<Monitor>, own: nat): (i: nat)
    ensures i <= |monitors|
    ensures i < |monitors| ==> monitors[i].id == own
    ensures forall j :: 0 <= j < i ==> monitors[j].id != own
  {
    if monitors == [] || monitors[0].id == own then 0 else 1 + PlaceOf(monitors[1..], own)
  }

  predicate Covered(monitors: seq<Monitor>, n: nat, p: Point)
    requires n <= |monitors|
  {
    exists j :: 0 <= j < n && In(p, monitors[j].geometry)
  }

  method OutsideRegion(monitors: seq<Monitor>, own: nat) returns (region: set<Point>)
    ensures forall p :: p in region <==> Covered(monitors, PlaceOf(monitors, own), p)
  {
    region := {};
    var i := 0;
    while i < |monitors|
      invariant i <= PlaceOf(monitors, own)
      invariant forall p :: p in region <==> Covered(monitors, i, p)
    {
      if monitors[i].id == own {
        break;
      }
      var r := monitors[i].geometry;
      ghost var before := region;
      region := region + Points(r);
      forall p ensures p in region <==> Covered(monitors, i + 1, p) {
        InPoints(p, r);
        assert p in before <==> Covered(monitors, i, p);
      }
      i := i + 1;
    }
  }

  /** What is left of the window's monitor. */
  ghost predicate Remains(monitors: seq<Monitor>, i: nat, p: Point)
    requires i < |monitors|
  {
    In(p, monitors[i].geometry) && !Covered(monitors, i, p)
  }

  ghost predicate Remainder(monitors: seq<Monitor>, i: nat, region: set<Point>)
    requires i < |monitors|
  {
    forall p :: p in region <==> Remains(monitors, i, p)
  }

  /** The rectangle of the window on monitor `i`. */
  ghost predicate WindowGeometry(monitors: seq<Monitor>, i: nat, r: Rect)
    requires i < |monitors|
  {
    exists region :: Remainder(monitors, i, region) && IsExtents(r, region)
  }

  method UpdateGeometry(monitors: seq<Monitor>, own: nat) returns (r: Rect)
    requires PlaceOf(monitors, own) < |monitors|
    ensures WindowGeometry(monitors, PlaceOf(monitors, own), r)
  {
    var i := PlaceOf(monitors, own);
    var outside := OutsideRegion(monitors, own);
    var geometry := monitors[i].geometry;
    var region := Points(geometry) - outside;
    forall p ensures p in region <==> Remains(monitors, i, p) {
      InPoints(p, geometry);
    }
    r := Extents(region);
  }

  // ----- Coverage --------------------------------------------------------------

  predicate InSome(p: Point, rects: seq<Rect>) {
    exists i :: 0 <= i < |rects| && In(p, rects[i])
  }

  /** A window stays on its own monitor. */
  lemma WindowInsideMonitor(monitors: seq<Monitor>, i: nat, r: Rect, p: Point)
    requires i < |monitors| && WindowGeometry(monitors, i, r) && In(p, r)
    ensures In(p, monitors[i].geometry)
  {
  }

  /** The first monitor that shows a point is not hidden there by earlier ones. */
  lemma {:induction false} FirstMonitorShows(monitors: seq<Monitor>, n: nat, p: Point)
    requires n <= |monitors| && Covered(monitors, n, p)
    ensures exists i :: 0 <= i < n && Remains(monitors, i, p)
    decreases n
  {
    var j :| 0 <= j < n && In(p, monitors[j].geometry);
    if Covered(monitors, j, p) {
      FirstMonitorShows(monitors, j, p);
    } else {
      assert Remains(monitors, j, p);
    }
  }

  /** Together the windows cover exactly what the monitors show. */
  lemma WindowsCoverMonitors(monitors: seq<Monitor>, windows: seq<Rect>, p: Point)
    requires |windows| == |monitors|
    requires forall i :: 0 <= i < |monitors| ==> WindowGeometry(monitors, i, windows[i])
    ensures InSome(p, windows) <==> Covered(monitors, |monitors|, p)
  {
    if InSome(p, windows) {
      var i :| 0 <= i < |windows| && In(p, windows[i]);
      WindowInsideMonitor(monitors, i, windows[i], p);
    }
    if Covered(monitors, |monitors|, p) {
      FirstMonitorShows(monitors, |monitors|, p);
      var i :| 0 <= i < |monitors| && Remains(monitors, i, p);
      assert WindowGeometry(monitors, i, windows[i]);
      var region: set<Point> :| Remainder(monitors, i, region) && IsExtents(windows[i], region);
      assert p in region;
      assert In(p, windows[i]);
    }
  }

  /** A monitor that earlier ones do not overlap is covered by its full rectangle. */
  lemma DisjointMonitorIsFull(monitors: seq<Monitor>, i: nat, r: Rect)
    requires i < |monitors| && WindowGeometry(monitors, i, r)
    requires monitors[i].geometry.width > 0 && monitors[i].geometry.height > 0
    requires forall p :: In(p, monitors[i].geometry) ==> !Covered(monitors, i, p)
    ensures r == monitors[i].geometry
  {
    var g := monitors[i].geometry;
    var a, b := Point(g.x, g.y), Point(g.x + g.width - 1, g.y + g.height - 1);
    var region: set<Point> :| Remainder(monitors, i, region) && IsExtents(r, region);
    assert Remains(monitors, i, a) && Remains(monitors, i, b);
    assert In(a, r) && In(b, r);
    WindowInsideMonitor(monitors, i, r, Point(r.x, r.y));
    WindowInsideMonitor(monitors, i, r, Point(r.x + r.width - 1, r.y + r.height - 1));
  }
}
