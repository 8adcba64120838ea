/**
 * The rotating wireframe globe (`RotatingEarth`).
 *
 * The component measures its container, sets up an orthographic projection whose scale
 * starts at the globe's radius, and keeps three pieces of mutable state: the rotation
 * (longitude, latitude), whether a drag is in progress, and the projection's scale. A
 * timer, the drag handlers and the wheel handler update that state and redraw. Once the
 * land dataset has loaded, a 2-degree lattice of dots is sampled inside every land feature.
 *
 * The projection itself, `d3.geoBounds` and `d3.geoContains` are parameters: the model
 * fixes how the component uses them, not what they compute. Canvas drawing is a list of
 * draw commands.
 */
module Globe {

  import opened Options

  /** The size the component asks for when no props are given. */
  const DefaultWidth: real := 800.0
  const DefaultHeight: real := 600.0

  /** Degrees of rotation per pixel of drag. */
  const Sensitivity: real := 0.4

  /** Degrees of longitude per autorotation tick. */
  const AutoStep: real := 0.2

  /** The spacing of the dot lattice, in degrees. */
  const GridStep: real := 2.0

  function Min(a: real, b: real): real
  {
    if a <= b then a else b
  }

  function Max(a: real, b: real): real
  {
    if a <= b then b else a
  }

  // ---------------------------------------------------------------------------------
  // Layout

  /** The container size in CSS pixels and the globe radius derived from it. */
  datatype Layout = Layout(width: real, height: real, radius: real)

  /**
   * The container is the requested size, capped by the window less a 40-pixel and a
   * 100-pixel margin; the radius is the smaller side over 2.3, so the globe fits inside.
   * Nothing keeps a very small window from giving a zero or negative radius.
   */
  function Measure(width: real, height: real, innerWidth: real, innerHeight: real): (l: Layout)
    ensures l.width <= width && l.width <= innerWidth - 40.0
    ensures l.width == width || l.width == innerWidth - 40.0
    ensures l.height <= height && l.height <= innerHeight - 100.0
    ensures l.height == height || l.height == innerHeight - 100.0
    ensures l.radius > 0.0 <==> l.width > 0.0 && l.height > 0.0
    ensures l.radius > 0.0 ==> 2.0 * l.radius < l.width && 2.0 * l.radius < l.height
    ensures 2.3 * l.radius == l.width || 2.3 * l.radius == l.height
    ensures 2.3 * l.radius <= l.width && 2.3 * l.radius <= l.height
  {
    var w := Min(width, innerWidth - 40.0);
    var h := Min(height, innerHeight - 100.0);
    Layout(w, h, Min(w, h) / 2.3)
  }

  /** Without props, a window of at least 840 by 700 pixels gives the full 800 by 600 container. */
  lemma DefaultSizeOnLargeWindow(innerWidth: real, innerHeight: real)
    requires innerWidth >= DefaultWidth + 40.0 && innerHeight >= DefaultHeight + 100.0
    ensures Measure(DefaultWidth, DefaultHeight, innerWidth, innerHeight) == Layout(800.0, 600.0, 600.0 / 2.3)
  {
  }

  // ---------------------------------------------------------------------------------
  // Interaction state: rotation, drag flag and scale

  /** The globe's mutable state: `rotation`, `isDragging` and `projection.scale()`. */
  datatype Interaction = Interaction(lng: real, lat: real, dragging: bool, scale: real)

  /** The events that update it. */
  datatype Event = Tick | DragStart | DragMove(dx: real, dy: real) | DragEnd | Wheel(deltaY: real)

  /** The state when the component mounts: no rotation, not dragging, scale equal to the radius. */
  function Initial(radius: real): Interaction
  {
    Interaction(0.0, 0.0, false, radius)
  }

  /** `Math.max(-90, Math.min(90, lat))`: latitude clamped to the poles. */
  function ClampLat(lat: real): (r: real)
    ensures -90.0 <= r <= 90.0
    ensures -90.0 <= lat <= 90.0 ==> r == lat
    ensures lat < -90.0 ==> r == -90.0
    ensures lat > 90.0 ==> r == 90.0
  {
    Max(-90.0, Min(90.0, lat))
  }

  /** The factor one wheel event applies: zoom out on a downward scroll, in otherwise. */
  function WheelFactor(deltaY: real): real
  {
    if deltaY > 0.0 then 0.9 else 1.1
  }

  /** The wheel handler's new scale: the scaled value clamped to [0.5, 3] times the radius. */
  function Zoom(scale: real, radius: real, deltaY: real): (r: real)
    ensures radius > 0.0 ==> 0.5 * radius <= r <= 3.0 * radius
    ensures radius > 0.0 && 0.5 * radius <= scale * WheelFactor(deltaY) <= 3.0 * radius ==>
      r == scale * WheelFactor(deltaY)
    ensures radius > 0.0 && scale * WheelFactor(deltaY) < 0.5 * radius ==> r == 0.5 * radius
    ensures radius > 0.0 && scale * WheelFactor(deltaY) > 3.0 * radius ==> r == 3.0 * radius
    ensures radius <= 0.0 ==> r == 0.5 * radius
    ensures radius > 0.0 && 0.5 * radius <= scale <= 3.0 * radius ==>
      (deltaY > 0.0 ==> r <= scale) && (deltaY <= 0.0 ==> r >= scale)
  {
    Max(radius * 0.5, Min(radius * 3.0, scale * WheelFactor(deltaY)))
  }

  /** The scales reachable from `radius`: the clamp interval, or, for a radius the interval cannot hold, the two values reached. */
  predicate ScaleOk(scale: real, radius: real)
  {
    if radius > 0.0 then 0.5 * radius <= scale <= 3.0 * radius
    else scale == radius || scale == 0.5 * radius
  }

  /** What holds of the state at all times. */
  predicate Inv(s: Interaction, radius: real)
  {
    -90.0 <= s.lat <= 90.0 && ScaleOk(s.scale, radius)
  }

  /** One event applied to the state: the timer, the three drag handlers and the wheel handler. */
  function Step(s: Interaction, e: Event, radius: real): (r: Interaction)
    ensures Inv(s, radius) ==> Inv(r, radius)
    ensures e.DragMove? ==> -90.0 <= r.lat <= 90.0
    ensures r.dragging == (e.DragStart? || (s.dragging && !e.DragEnd?))
    ensures s.dragging && e.Tick? ==> r == s
    ensures !e.DragMove? ==> r.lat == s.lat
    ensures !e.Wheel? ==> r.scale == s.scale
    ensures !e.Tick? && !e.DragMove? ==> r.lng == s.lng
  {
    match e
    case Tick => if s.dragging then s else s.(lng := s.lng + AutoStep)
    case DragStart => s.(dragging := true)
    case DragMove(dx, dy) => s.(lng := s.lng + dx * Sensitivity, lat := ClampLat(s.lat - dy * Sensitivity))
    case DragEnd => s.(dragging := false)
    case Wheel(deltaY) => s.(scale := Zoom(s.scale, radius, deltaY))
  }

  /** A sequence of events applied in order. */
  function Run(s: Interaction, events: seq<Event>, radius: real): Interaction
    decreases |events|
  {
    if events == [] then s else Run(Step(s, events[0], radius), events[1..], radius)
  }

  /** The mounted state satisfies the invariant. */
  lemma InitialInv(radius: real)
    ensures Inv(Initial(radius), radius)
    ensures !Initial(radius).dragging
  {
  }

  /** Latitude stays within [-90, 90] and scale within its clamp interval across any event sequence. */
  lemma {:induction false} RunKeepsInv(s: Interaction, events: seq<Event>, radius: real)
    requires Inv(s, radius)
    ensures Inv(Run(s, events, radius), radius)
    decreases |events|
  {
    if events != [] {
      RunKeepsInv(Step(s, events[0], radius), events[1..], radius);
    }
  }

  /** While a drag is in progress, any number of timer ticks leaves the state unchanged. */
  lemma {:induction false} TicksWhileDragging(s: Interaction, events: seq<Event>, radius: real)
    requires s.dragging
    requires forall i :: 0 <= i < |events| ==> events[i] == Tick
    ensures Run(s, events, radius) == s
    decreases |events|
  {
    if events != [] {
      TicksWhileDragging(Step(s, events[0], radius), events[1..], radius);
    }
  }

  /** `n` ticks without a drag turn the globe by exactly `0.2 * n` degrees of longitude. */
  lemma {:induction false} TicksRotate(s: Interaction, events: seq<Event>, radius: real)
    requires !s.dragging
    requires forall i :: 0 <= i < |events| ==> events[i] == Tick
    ensures Run(s, events, radius) == s.(lng := s.lng + AutoStep * |events| as real)
    decreases |events|
  {
    if events != [] {
      TicksRotate(Step(s, events[0], radius), events[1..], radius);
    }
  }

  /** A drag of 10 pixels to the right turns the globe by 4 degrees; a downward scroll then zooms out. */
  lemma DragThenZoomOut(s: Interaction, radius: real)
    requires Inv(s, radius) && radius > 0.0
    ensures var t := Run(s, [DragStart, DragMove(10.0, 0.0), DragEnd, Wheel(1.0)], radius);
      t.lng == s.lng + 4.0 && t.lat == s.lat && !t.dragging && t.scale == Zoom(s.scale, radius, 1.0) && t.scale <= s.scale
  {
  }

  // ---------------------------------------------------------------------------------
  // The land-dot lattice

  /** A sampled land dot, in degrees. */
  datatype Dot = Dot(lng: real, lat: real)

  /** `d3.geoBounds(feature)`: `[[minLng, minLat], [maxLng, maxLat]]`. */
  datatype Bounds = Bounds(minLng: real, minLat: real, maxLng: real, maxLat: real)

  /** The `k`-th value of a loop that starts at `lo` and adds 2 each time. */
  function GridValue(lo: real, k: nat): real
  {
    lo + GridStep * k as real
  }

  /** How many times `for (v = lo; v <= hi; v += 2)` runs its body. */
  function GridSteps(lo: real, hi: real): (n: nat)
    ensures forall k: nat :: k < n <==> GridValue(lo, k) <= hi
  {
    if hi < lo then 0 else ((hi - lo) / GridStep).Floor + 1
  }

  /** `d` lies within `b`. */
  predicate Within(b: Bounds, d: Dot)
  {
    b.minLng <= d.lng <= b.maxLng && b.minLat <= d.lat <= b.maxLat
  }

  /** `d` is one of the lattice points the two loops visit for bounds `b`. */
  ghost predicate OnGrid(b: Bounds, d: Dot)
  {
    exists k: nat, j: nat :: k < GridSteps(b.minLng, b.maxLng) && j < GridSteps(b.minLat, b.maxLat) &&
      d == Dot(GridValue(b.minLng, k), GridValue(b.minLat, j))
  }

  /** Longitude first, then latitude: the order the loops visit points in. */
  predicate Before(a: Dot, b: Dot)
  {
    a.lng < b.lng || (a.lng == b.lng && a.lat < b.lat)
  }

  predicate Ordered(ds: seq<Dot>)
  {
    forall a, b :: 0 <= a < b < |ds| ==> Before(ds[a], ds[b])
  }

  /** The dots the inner (latitude) loop pushes in its first `n` rounds at longitude `lng`. */
  function ColumnDots<F>(f: F, contains: (F, Dot) -> bool, lng: real, minLat: real, n: nat): seq<Dot>
  {
    if n == 0 then []
    else
      var p := ColumnDots(f, contains, lng, minLat, n - 1);
      var d := Dot(lng, GridValue(minLat, n - 1));
      if contains(f, d) then p + [d] else p
  }

  /** The dots the two loops push for feature `f` in the first `m` rounds of the outer (longitude) loop. */
  function FeatureDots<F>(f: F, b: Bounds, contains: (F, Dot) -> bool, m: nat): seq<Dot>
  {
    if m == 0 then []
    else
      FeatureDots(f, b, contains, m - 1)
      + ColumnDots(f, contains, GridValue(b.minLng, m - 1), b.minLat, GridSteps(b.minLat, b.maxLat))
  }

  /**
   * A column holds exactly the contained points among its first `n` latitudes, in
   * increasing latitude.
   */
  lemma {:induction false} ColumnDotsSpec<F>(f: F, contains: (F, Dot) -> bool, lng: real, minLat: real, n: nat)
    ensures forall i :: 0 <= i < |ColumnDots(f, contains, lng, minLat, n)| ==>
      var d := ColumnDots(f, contains, lng, minLat, n)[i];
      contains(f, d) && exists j: nat :: j < n && d == Dot(lng, GridValue(minLat, j))
    ensures forall j: nat :: j < n && contains(f, Dot(lng, GridValue(minLat, j))) ==>
      Dot(lng, GridValue(minLat, j)) in ColumnDots(f, contains, lng, minLat, n)
    ensures Ordered(ColumnDots(f, contains, lng, minLat, n))
  {
    if n > 0 {
      ColumnDotsSpec(f, contains, lng, minLat, n - 1);
      var p := ColumnDots(f, contains, lng, minLat, n - 1);
      assert forall i :: 0 <= i < |p| ==> p[i].lat < GridValue(minLat, n - 1);
    }
  }

  /** Every dot of a feature's first `m` columns is a contained lattice point of those columns. */
  lemma {:induction false} FeatureDotsSound<F>(f: F, b: Bounds, contains: (F, Dot) -> bool, m: nat)
    ensures forall i :: 0 <= i < |FeatureDots(f, b, contains, m)| ==>
      var d := FeatureDots(f, b, contains, m)[i];
      contains(f, d) && exists k: nat, j: nat ::
        k < m && j < GridSteps(b.minLat, b.maxLat) && d == Dot(GridValue(b.minLng, k), GridValue(b.minLat, j))
  {
    if m > 0 {
      FeatureDotsSound(f, b, contains, m - 1);
      var p := FeatureDots(f, b, contains, m - 1);
      var n := GridSteps(b.minLat, b.maxLat);
      var lng := GridValue(b.minLng, m - 1);
      ColumnDotsSpec(f, contains, lng, b.minLat, n);
      var c := ColumnDots(f, contains, lng, b.minLat, n);
      forall i | 0 <= i < |p + c|
        ensures var d := (p + c)[i];
          contains(f, d) && exists k: nat, j: nat ::
            k < m && j < n && d == Dot(GridValue(b.minLng, k), GridValue(b.minLat, j))
      {
        if i < |p| {
          assert (p + c)[i] == p[i];
        } else {
          assert (p + c)[i] == c[i - |p|];
          var j: nat :| j < n && c[i - |p|] == Dot(lng, GridValue(b.minLat, j));
          assert c[i - |p|] == Dot(GridValue(b.minLng, m - 1), GridValue(b.minLat, j));
        }
      }
    }
  }

  /** Every contained lattice point of a feature's first `m` columns is among its dots. */
  lemma {:induction false} FeatureDotsComplete<F>(f: F, b: Bounds, contains: (F, Dot) -> bool, m: nat, k: nat, j: nat)
    requires k < m && j < GridSteps(b.minLat, b.maxLat)
    requires contains(f, Dot(GridValue(b.minLng, k), GridValue(b.minLat, j)))
    ensures Dot(GridValue(b.minLng, k), GridValue(b.minLat, j)) in FeatureDots(f, b, contains, m)
  {
    var p := FeatureDots(f, b, contains, m - 1);
    var lng := GridValue(b.minLng, m - 1);
    var c := ColumnDots(f, contains, lng, b.minLat, GridSteps(b.minLat, b.maxLat));
    assert FeatureDots(f, b, contains, m) == p + c;
    if k < m - 1 {
      FeatureDotsComplete(f, b, contains, m - 1, k, j);
    } else {
      ColumnDotsSpec(f, contains, lng, b.minLat, GridSteps(b.minLat, b.maxLat));
    }
  }

  /** A feature's dots come in the loops' order: by longitude, then by latitude. */
  lemma {:induction false} FeatureDotsOrdered<F>(f: F, b: Bounds, contains: (F, Dot) -> bool, m: nat)
    ensures Ordered(FeatureDots(f, b, contains, m))
  {
    if m > 0 {
      FeatureDotsOrdered(f, b, contains, m - 1);
      FeatureDotsSound(f, b, contains, m - 1);
      var p := FeatureDots(f, b, contains, m - 1);
      var lng := GridValue(b.minLng, m - 1);
      ColumnDotsSpec(f, contains, lng, b.minLat, GridSteps(b.minLat, b.maxLat));
      var c := ColumnDots(f, contains, lng, b.minLat, GridSteps(b.minLat, b.maxLat));
      assert forall i :: 0 <= i < |p| ==> p[i].lng < lng;
      assert forall i :: 0 <= i < |c| ==> c[i].lng == lng;
    }
  }

  /** Every dot sampled for all of `features`, feature by feature. */
  function Sampled<F>(features: seq<F>, bounds: F -> Bounds, contains: (F, Dot) -> bool): seq<Dot>
  {
    if features == [] then []
    else
      var f := features[|features| - 1];
      var b := bounds(f);
      Sampled(features[..|features| - 1], bounds, contains) + FeatureDots(f, b, contains, GridSteps(b.minLng, b.maxLng))
  }

  /** Every sampled dot is a lattice point of some feature, lies within its bounds and is contained in it. */
  lemma {:induction false} SampledSound<F>(features: seq<F>, bounds: F -> Bounds, contains: (F, Dot) -> bool, d: Dot)
    requires d in Sampled(features, bounds, contains)
    ensures exists i ::
      && 0 <= i < |features|
      && OnGrid(bounds(features[i]), d)
      && Within(bounds(features[i]), d)
      && contains(features[i], d)
  {
    var n := |features| - 1;
    var f := features[n];
    var b := bounds(f);
    var p := features[..n];
    if d in Sampled(p, bounds, contains) {
      SampledSound(p, bounds, contains, d);
      var i :| 0 <= i < |p| && OnGrid(bounds(p[i]), d) && Within(bounds(p[i]), d) && contains(p[i], d);
      assert p[i] == features[i];
    } else {
      var r := FeatureDots(f, b, contains, GridSteps(b.minLng, b.maxLng));
      FeatureDotsSound(f, b, contains, GridSteps(b.minLng, b.maxLng));
      var x :| 0 <= x < |r| && r[x] == d;
      var k: nat, j: nat :| k < GridSteps(b.minLng, b.maxLng) && j < GridSteps(b.minLat, b.maxLat) &&
        d == Dot(GridValue(b.minLng, k), GridValue(b.minLat, j));
      assert OnGrid(b, d);
    }
  }

  /** Every lattice point of a feature that the feature contains is sampled. */
  lemma {:induction false} SampledComplete<F>(features: seq<F>, bounds: F -> Bounds, contains: (F, Dot) -> bool, i: nat, d: Dot)
    requires i < |features|
    requires OnGrid(bounds(features[i]), d) && contains(features[i], d)
    ensures d in Sampled(features, bounds, contains)
  {
    var n := |features| - 1;
    var f := features[n];
    var b := bounds(f);
    var p := features[..n];
    if i < n {
      assert p[i] == features[i];
      SampledComplete(p, bounds, contains, i, d);
    } else {
      var k: nat, j: nat :| k < GridSteps(b.minLng, b.maxLng) && j < GridSteps(b.minLat, b.maxLat) &&
        d == Dot(GridValue(b.minLng, k), GridValue(b.minLat, j));
      FeatureDotsComplete(f, b, contains, GridSteps(b.minLng, b.maxLng), k, j);
    }
  }

  /** Sampling more features appends their dots after the earlier ones. */
  lemma {:induction false} SampledAppend<F>(fs: seq<F>, gs: seq<F>, bounds: F -> Bounds, contains: (F, Dot) -> bool)
    ensures Sampled(fs + gs, bounds, contains) == Sampled(fs, bounds, contains) + Sampled(gs, bounds, contains)
    decreases |gs|
  {
    if gs == [] {
      assert fs + gs == fs;
    } else {
      var all, n := fs + gs, |gs| - 1;
      var g := gs[n];
      assert all[..|all| - 1] == fs + gs[..n] && all[|all| - 1] == g;
      var tail := FeatureDots(g, bounds(g), contains, GridSteps(bounds(g).minLng, bounds(g).maxLng));
      assert Sampled(all, bounds, contains) == Sampled(fs + gs[..n], bounds, contains) + tail;
      assert Sampled(gs, bounds, contains) == Sampled(gs[..n], bounds, contains) + tail;
      SampledAppend(fs, gs[..n], bounds, contains);
    }
  }

  // ---------------------------------------------------------------------------------
  // Rendering

  /** A point on the canvas, in CSS pixels. */
  datatype Point = Point(x: real, y: real)

  /** What the projection is configured with when `render` runs: the rotation and the scale. */
  datatype View = View(lng: real, lat: real, scale: real)

  /**
   * The canvas calls of one `render`. A line width or dot radius is `None` where the
   * source divides by a zero radius and so sets a non-finite value.
   */
  datatype Cmd<F> =
    | ClearRect(width: real, height: real)
    | Outline(cx: real, cy: real, radius: real, lineWidth: Option<real>)
    | Graticule(alpha: real, lineWidth: Option<real>)
    | LandOutlines(features: seq<F>, lineWidth: Option<real>)
    | FillDot(at: Point, size: Option<real>)

  /** `projection.scale() / radius`. */
  function ScaleFactor(scale: real, radius: real): Option<real>
  {
    if radius == 0.0 then None else Some(scale / radius)
  }

  function Times(k: real, factor: Option<real>): Option<real>
  {
    if factor.Some? then Some(k * factor.value) else None
  }

  /** One filled circle per dot the projection places on the canvas, in the order of the dots. */
  function DotCmds<F>(dots: seq<Dot>, v: View, project: (View, Dot) -> Option<Point>, r: Option<real>): seq<Cmd<F>>
  {
    if dots == [] then []
    else
      var rest := DotCmds(dots[1..], v, project, r);
      var p := project(v, dots[0]);
      if p.Some? then [FillDot(p.value, r)] + rest else rest
  }

  /** The indices, from `from` on, of the dots the projection places, in increasing order. */
  ghost function PlacedFrom(dots: seq<Dot>, v: View, project: (View, Dot) -> Option<Point>, from: nat): seq<nat>
    decreases |dots| - from
  {
    if from >= |dots| then []
    else (if project(v, dots[from]).Some? then [from] else []) + PlacedFrom(dots, v, project, from + 1)
  }

  /** The placed indices from `from` on grow strictly, and are exactly the placed dots at or after `from`. */
  lemma {:induction false} PlacedFromSpec(dots: seq<Dot>, v: View, project: (View, Dot) -> Option<Point>, from: nat)
    ensures var idx := PlacedFrom(dots, v, project, from);
      && (from <= |dots| ==> |idx| <= |dots| - from)
      && (forall k :: 0 <= k < |idx| ==> from <= idx[k] < |dots|)
      && (forall a, b :: 0 <= a < b < |idx| ==> idx[a] < idx[b])
      && (forall i :: from <= i < |dots| ==> (i in idx <==> project(v, dots[i]).Some?))
    decreases |dots| - from
  {
    if from < |dots| {
      PlacedFromSpec(dots, v, project, from + 1);
    }
  }

  /** Circle `k` is drawn at the projection of the `k`-th placed dot at or after `from`. */
  lemma {:induction false} DotCmdsAt<F>(dots: seq<Dot>, v: View, project: (View, Dot) -> Option<Point>, r: Option<real>, from: nat)
    requires from <= |dots|
    ensures var cmds, idx := DotCmds<F>(dots[from..], v, project, r), PlacedFrom(dots, v, project, from);
      && |cmds| == |idx|
      && (forall k :: 0 <= k < |idx| ==> idx[k] < |dots| && project(v, dots[idx[k]]).Some? && cmds[k] == FillDot(project(v, dots[idx[k]]).value, r))
    decreases |dots| - from
  {
    if from < |dots| {
      DotCmdsAt<F>(dots, v, project, r, from + 1);
      var p := project(v, dots[from]);
      var rest, tail := DotCmds<F>(dots[from + 1..], v, project, r), PlacedFrom(dots, v, project, from + 1);
      assert dots[from..][1..] == dots[from + 1..] && dots[from..][0] == dots[from];
      var cmds, idx := DotCmds<F>(dots[from..], v, project, r), PlacedFrom(dots, v, project, from);
      if p.Some? {
        assert cmds == [FillDot(p.value, r)] + rest && idx == [from] + tail;
        forall k | 0 < k < |idx|
          ensures idx[k] == tail[k - 1] && cmds[k] == rest[k - 1]
        {
        }
      } else {
        assert cmds == rest && idx == tail;
      }
    }
  }

  /**
   * The dot circles, exactly: circle `k` is drawn at the projection of the `k`-th placed
   * dot, where the placed dots are taken in the order of `dots`, each one once.
   */
  lemma DotCmdsInOrder<F>(dots: seq<Dot>, v: View, project: (View, Dot) -> Option<Point>, r: Option<real>)
    ensures var cmds, idx := DotCmds<F>(dots, v, project, r), PlacedFrom(dots, v, project, 0);
      && |cmds| == |idx|
      && (forall a, b :: 0 <= a < b < |idx| ==> idx[a] < idx[b])
      && (forall i :: 0 <= i < |dots| ==> (i in idx <==> project(v, dots[i]).Some?))
      && (forall k :: 0 <= k < |idx| ==> idx[k] < |dots| && project(v, dots[idx[k]]).Some? && cmds[k] == FillDot(project(v, dots[idx[k]]).value, r))
  {
    PlacedFromSpec(dots, v, project, 0);
    DotCmdsAt<F>(dots, v, project, r, 0);
    assert dots[0..] == dots;
  }

  /**
   * `render`: clear, draw the outline at the current scale, and stop there until the land
   * data has loaded; then the graticule at 20% opacity, the land outlines and the dots.
   * Widths are multiplied by `scale / radius`.
   */
  function Render<F>(l: Layout, v: View, land: Option<seq<F>>, dots: seq<Dot>, project: (View, Dot) -> Option<Point>): (r: seq<Cmd<F>>)
    ensures |r| >= 2 && r[0] == ClearRect(l.width, l.height)
    ensures r[1].Outline? && r[1].cx == l.width / 2.0 && r[1].cy == l.height / 2.0 && r[1].radius == v.scale
    ensures l.radius != 0.0 ==> r[1].lineWidth == Some(2.0 * (v.scale / l.radius))
    ensures l.radius == 0.0 ==> r[1].lineWidth == None
    ensures land.None? <==> |r| == 2
    ensures land.Some? ==> |r| >= 4 && r[2].Graticule? && r[2].alpha == 0.2 && r[3] == LandOutlines(land.value, r[2].lineWidth)
    ensures land.Some? && l.radius != 0.0 ==> r[2].lineWidth == Some(v.scale / l.radius)
    ensures land.Some? && l.radius == 0.0 ==> r[2].lineWidth == None
    ensures land.Some? ==> r[4..] == DotCmds(dots, v, project, Times(1.3, ScaleFactor(v.scale, l.radius)))
    ensures land.Some? ==> |r| <= 4 + |dots|
    ensures forall i :: 4 <= i < |r| ==> r[i].FillDot? && exists d :: d in dots && project(v, d) == Some(r[i].at)
  {
    var factor := ScaleFactor(v.scale, l.radius);
    var outline := [ClearRect(l.width, l.height), Outline(l.width / 2.0, l.height / 2.0, v.scale, Times(2.0, factor))];
    if land.None? then outline
    else
      var cmds := DotCmds(dots, v, project, Times(1.3, factor));
      DotCmdsInOrder<F>(dots, v, project, Times(1.3, factor));
      PlacedFromSpec(dots, v, project, 0);
      assert forall k :: 0 <= k < |cmds| ==> var d := dots[PlacedFrom(dots, v, project, 0)[k]];
        d in dots && project(v, d) == Some(cmds[k].at);
      outline + [Graticule(0.2, Times(1.0, factor)), LandOutlines(land.value, Times(1.0, factor))] + cmds
  }

  // ---------------------------------------------------------------------------------
  // The component

  /**
   * One mounted globe. `F` is the type of a land feature. `project` stands for the
   * orthographic projection: given the rotation and scale, where a dot lands on the canvas.
   */
  class RotatingEarth<F> {
    const layout: Layout
    const project: (View, Dot) -> Option<Point>
    var lng: real
    var lat: real
    var isDragging: bool
    var scale: real
    var landData: Option<seq<F>>
    var dots: seq<Dot>

    function State(): Interaction
      reads this
    {
      Interaction(lng, lat, isDragging, scale)
    }

    /** What the canvas shows after a `render` in the current state. */
    function Frame(): seq<Cmd<F>>
      reads this
    {
      Render(layout, View(lng, lat, scale), landData, dots, project)
    }

    ghost predicate Valid()
      reads this
    {
      Inv(State(), layout.radius)
    }

    /** The effect's set-up, before the land data arrives. */
    constructor (width: real, height: real, innerWidth: real, innerHeight: real, project: (View, Dot) -> Option<Point>)
      ensures Valid()
      ensures layout == Measure(width, height, innerWidth, innerHeight) && this.project == project
      ensures State() == Initial(layout.radius)
      ensures landData == None && dots == []
    {
      layout := Measure(width, height, innerWidth, innerHeight);
      this.project := project;
      lng, lat := 0.0, 0.0;
      isDragging := false;
      scale := Measure(width, height, innerWidth, innerHeight).radius;
      landData := None;
      dots := [];
    }

    /** The `d3.timer` callback: advance the longitude and redraw unless a drag is in progress. */
    method Tick() returns (drawn: seq<Cmd<F>>)
      requires Valid()
      modifies this`lng
      ensures Valid()
      ensures State() == Step(old(State()), Event.Tick, layout.radius)
      ensures drawn == if isDragging then [] else Frame()
    {
      drawn := [];
      if !isDragging {
        lng := lng + AutoStep;
        drawn := Frame();
      }
    }

    /** The drag `start` handler. */
    method DragStart()
      requires Valid()
      modifies this`isDragging
      ensures Valid()
      ensures State() == Step(old(State()), Event.DragStart, layout.radius)
    {
      isDragging := true;
    }

    /** The `drag` handler: rotate by the pointer movement, clamp the latitude, redraw. */
    method DragMove(dx: real, dy: real) returns (drawn: seq<Cmd<F>>)
      requires Valid()
      modifies this`lng, this`lat
      ensures Valid()
      ensures State() == Step(old(State()), Event.DragMove(dx, dy), layout.radius)
      ensures drawn == Frame()
    {
      lng := lng + dx * Sensitivity;
      lat := lat - dy * Sensitivity;
      lat := ClampLat(lat);
      drawn := Frame();
    }

    /** The drag `end` handler. */
    method DragEnd()
      requires Valid()
      modifies this`isDragging
      ensures Valid()
      ensures State() == Step(old(State()), Event.DragEnd, layout.radius)
    {
      isDragging := false;
    }

    /** The `wheel` listener: zoom by 0.9 or 1.1, clamp to [0.5, 3] times the radius, redraw. */
    method Wheel(deltaY: real) returns (drawn: seq<Cmd<F>>)
      requires Valid()
      modifies this`scale
      ensures Valid()
      ensures State() == Step(old(State()), Event.Wheel(deltaY), layout.radius)
      ensures drawn == Frame()
    {
      scale := Zoom(scale, layout.radius, deltaY);
      drawn := Frame();
    }

    /** The `forEach` body of `loadData` for one feature with bounds `b`: the longitude loop. */
    method SampleFeature(feature: F, b: Bounds, contains: (F, Dot) -> bool)
      modifies this`dots
      ensures dots == old(dots) + FeatureDots(feature, b, contains, GridSteps(b.minLng, b.maxLng))
    {
      var lng := b.minLng;
      ghost var k: nat := 0;
      while lng <= b.maxLng
        invariant k <= GridSteps(b.minLng, b.maxLng)
        invariant lng == GridValue(b.minLng, k)
        invariant dots == old(dots) + FeatureDots(feature, b, contains, k)
        decreases GridSteps(b.minLng, b.maxLng) - k
      {
        SampleColumn(feature, contains, lng, b.minLat, b.maxLat);
        lng := lng + GridStep;
        k := k + 1;
      }
    }

    /** The latitude loop of `loadData` at longitude `lng`: push every contained lattice point. */
    method SampleColumn(feature: F, contains: (F, Dot) -> bool, lng: real, minLat: real, maxLat: real)
      modifies this`dots
      ensures dots == old(dots) + ColumnDots(feature, contains, lng, minLat, GridSteps(minLat, maxLat))
    {
      var lat := minLat;
      ghost var j: nat := 0;
      while lat <= maxLat
        invariant j <= GridSteps(minLat, maxLat)
        invariant lat == GridValue(minLat, j)
        invariant dots == old(dots) + ColumnDots(feature, contains, lng, minLat, j)
        decreases GridSteps(minLat, maxLat) - j
      {
        if contains(feature, Dot(lng, lat)) {
          dots := dots + [Dot(lng, lat)];
        }
        lat := lat + GridStep;
        j := j + 1;
      }
    }

    /**
     * `loadData` once the dataset has arrived: keep the features, push the dots of every
     * feature's 2-degree lattice that `contains` accepts, then redraw.
     */
    method LoadData(features: seq<F>, bounds: F -> Bounds, contains: (F, Dot) -> bool) returns (drawn: seq<Cmd<F>>)
      requires Valid()
      modifies this`landData, this`dots
      ensures Valid()
      ensures landData == Some(features)
      ensures dots == old(dots) + Sampled(features, bounds, contains)
      ensures drawn == Frame()
    {
      landData := Some(features);
      var n := 0;
      while n < |features|
        invariant 0 <= n <= |features|
        invariant dots == old(dots) + Sampled(features[..n], bounds, contains)
        modifies this`dots
      {
        var feature := features[n];
        var b := bounds(feature);
        SampleFeature(feature, b, contains);
        ghost var prefix := features[..n + 1];
        assert prefix[..n] == features[..n] && prefix[n] == feature;
        assert Sampled(prefix, bounds, contains)
          == Sampled(features[..n], bounds, contains) + FeatureDots(feature, b, contains, GridSteps(b.minLng, b.maxLng));
        n := n + 1;
      }
      assert features[..n] == features;
      drawn := Frame();
    }
  }
}
