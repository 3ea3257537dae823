/** The two conversions of the anchor table: monotone, and inverse to each other where they can be. */
module TimelineLaws {
  import opened Prelude
  import opened RealDivision
  import opened TeachingTimeline

  predicate NonDecreasing(p: seq<Point>) {
    && p != []
    && forall i | 0 < i < |p| :: p[i - 1].x <= p[i].x && p[i - 1].y <= p[i].y
  }

  predicate Increasing(p: seq<Point>) {
    && |p| >= 2
    && forall i | 0 < i < |p| :: p[i - 1].x < p[i].x && p[i - 1].y < p[i].y
  }

  function Swapped(p: seq<Point>): (q: seq<Point>)
    ensures |q| == |p|
  {
    seq(|p|, i requires 0 <= i < |p| => Point(p[i].y, p[i].x))
  }

  // ----- One segment -----

  /** The slope of the straight line through two points. */
  function Slope(a: Point, b: Point): real
    requires a.x != b.x
  {
    (b.y - a.y) / (b.x - a.x)
  }

  function Line(a: Point, b: Point, x: real): real
    requires a.x != b.x
  {
    a.y + (x - a.x) * Slope(a, b)
  }

  lemma SlopeSpans(a: Point, b: Point)
    requires a.x < b.x && a.y <= b.y
    ensures Slope(a, b) >= 0.0 && (b.x - a.x) * Slope(a, b) == b.y - a.y
    ensures a.y < b.y ==> Slope(a, b) > 0.0
  {
    var k := Slope(a, b);
    assert (b.x - a.x) * k == b.y - a.y;
    if k < 0.0 {
      MulMono(k, 0.0, b.x - a.x);
    }
  }

  lemma InterpolateIsLine(a: Point, b: Point, x: real)
    requires a.x != b.x
    ensures Interpolate(x, a.x, b.x, a.y, b.y) == Line(a, b, x)
  {
    Regroup(x - a.x, b.x - a.x, b.y - a.y);
  }

  lemma Regroup(u: real, v: real, w: real)
    requires v != 0.0
    ensures u / v * w == u * (w / v)
  {
    var k := w / v;
    assert k * v == w;
    assert u / v * v == u;
    assert u / v * (k * v) == (u / v * v) * k;
  }

  lemma ExtrapolateIsLine(a: Point, b: Point, x: real)
    requires a.x < b.x && a.y <= b.y
    ensures Extrapolate(x, a.x, b.x, a.y, b.y) == Line(a, b, x)
  {
    SlopeSpans(a, b);
    var k := Slope(a, b);
    assert (x - b.x) * k + (b.x - a.x) * k == (x - a.x) * k;
  }

  lemma Distribute(u: real, v: real, k: real)
    ensures u * k - v * k == (u - v) * k
  {
  }

  lemma LineEnds(a: Point, b: Point)
    requires a.x < b.x && a.y <= b.y
    ensures Line(a, b, a.x) == a.y && Line(a, b, b.x) == b.y
  {
    SlopeSpans(a, b);
    LineStart(a, b);
  }

  lemma LineStart(a: Point, b: Point)
    requires a.x < b.x
    ensures Line(a, b, a.x) == a.y
  {
    Distribute(a.x, a.x, Slope(a, b));
  }

  lemma LineSteps(a: Point, b: Point, x: real, z: real)
    requires a.x < b.x
    ensures Line(a, b, z) - Line(a, b, x) == (z - x) * Slope(a, b)
  {
    Distribute(z - a.x, x - a.x, Slope(a, b));
  }

  lemma LineMonotone(a: Point, b: Point, x: real, z: real)
    requires a.x < b.x && a.y <= b.y && x <= z
    ensures Line(a, b, x) <= Line(a, b, z)
    ensures Line(a, b, a.x) == a.y && Line(a, b, b.x) == b.y
    ensures Line(a, b, z) - Line(a, b, x) == (z - x) * Slope(a, b)
    ensures a.y < b.y && x < z ==> Line(a, b, x) < Line(a, b, z)
  {
    LineEnds(a, b);
    SlopeSpans(a, b);
    LineSteps(a, b, x, z);
    MulNonneg(z - x, Slope(a, b));
  }

  lemma MulNonneg(u: real, k: real)
    requires u >= 0.0 && k >= 0.0
    ensures u * k >= 0.0
    ensures u > 0.0 && k > 0.0 ==> u * k > 0.0
  {
  }

  lemma LineInverts(a: Point, b: Point, x: real)
    requires a.x < b.x && a.y < b.y
    ensures Line(Point(a.y, a.x), Point(b.y, b.x), Line(a, b, x)) == x
  {
    SlopeSpans(a, b);
    var k, m := Slope(a, b), Slope(Point(a.y, a.x), Point(b.y, b.x));
    assert m * (b.y - a.y) == b.x - a.x;
    assert k * m == 1.0 by {
      assert (b.x - a.x) * k * m == b.x - a.x;
    }
    assert ((x - a.x) * k) * m == (x - a.x) * (k * m);
  }

  // ----- The whole scan -----

  lemma {:induction false} ScanBounds(p: seq<Point>, i: nat, x: real)
    requires NonDecreasing(p) && i < |p| && p[i].x < x
    ensures Scan(p, i, x) >= p[i].y
    decreases |p| - i
  {
    if i + 1 == |p| {
      if |p| >= 2 && p[i - 1].x != p[i].x {
        ExtrapolateIsLine(p[i - 1], p[i], x);
        LineMonotone(p[i - 1], p[i], p[i].x, x);
      }
    } else if x <= p[i + 1].x {
      InterpolateIsLine(p[i], p[i + 1], x);
      LineMonotone(p[i], p[i + 1], p[i].x, x);
    } else {
      ScanBounds(p, i + 1, x);
    }
  }

  lemma {:induction false} ScanMonotone(p: seq<Point>, i: nat, x: real, z: real)
    requires NonDecreasing(p) && i < |p| && p[i].x < x <= z
    ensures Scan(p, i, x) <= Scan(p, i, z)
    decreases |p| - i
  {
    if i + 1 == |p| {
      if |p| >= 2 && p[i - 1].x != p[i].x {
        ExtrapolateIsLine(p[i - 1], p[i], x);
        ExtrapolateIsLine(p[i - 1], p[i], z);
        LineMonotone(p[i - 1], p[i], x, z);
      }
    } else if x <= p[i + 1].x {
      InterpolateIsLine(p[i], p[i + 1], x);
      if z <= p[i + 1].x {
        InterpolateIsLine(p[i], p[i + 1], z);
        LineMonotone(p[i], p[i + 1], x, z);
      } else {
        LineMonotone(p[i], p[i + 1], x, p[i + 1].x);
        ScanBounds(p, i + 1, z);
      }
    } else {
      ScanMonotone(p, i + 1, x, z);
    }
  }

  lemma PiecewiseMonotone(p: seq<Point>, x: real, z: real)
    requires NonDecreasing(p) && x <= z
    ensures Piecewise(p, x) <= Piecewise(p, z)
  {
    if z > p[0].x {
      ScanBounds(p, 0, z);
      if x > p[0].x {
        ScanMonotone(p, 0, x, z);
      }
    }
  }

  /** `x` lies on segment `i`; the last segment also carries everything past the table. */
  predicate OnSegment(p: seq<Point>, i: nat, x: real) {
    i + 1 < |p| && p[i].x <= x && (x <= p[i + 1].x || i + 2 == |p|)
  }

  lemma {:induction false} SomeSegment(p: seq<Point>, from: nat, x: real) returns (i: nat)
    requires Increasing(p) && from + 1 < |p| && p[from].x <= x
    ensures from <= i && OnSegment(p, i, x)
    decreases |p| - from
  {
    if x <= p[from + 1].x || from + 2 == |p| {
      i := from;
    } else {
      i := SomeSegment(p, from + 1, x);
    }
  }

  lemma {:induction false} Ascending(p: seq<Point>, i: nat, j: nat)
    requires Increasing(p) && i <= j < |p|
    ensures p[i].x <= p[j].x && p[i].y <= p[j].y
    ensures i < j ==> p[i].x < p[j].x && p[i].y < p[j].y
    decreases j
  {
    if i < j {
      Ascending(p, i, j - 1);
    }
  }

  /** On any segment that holds `x` the scan's answer is that segment's line. */
  lemma {:induction false} ScanIsLine(p: seq<Point>, from: nat, i: nat, x: real)
    requires Increasing(p) && OnSegment(p, i, x) && from <= i && p[from].x < x
    ensures Scan(p, from, x) == Line(p[i], p[i + 1], x)
    decreases i - from
  {
    Ascending(p, from, i);
    if from == i {
      InterpolateIsLine(p[i], p[i + 1], x);
      ExtrapolateIsLine(p[i], p[i + 1], x);
    } else if x <= p[from + 1].x {
      // Only the shared end point lies on both segments.
      Ascending(p, from + 1, i);
      InterpolateIsLine(p[from], p[from + 1], x);
      LineMonotone(p[from], p[from + 1], x, x);
      LineMonotone(p[i], p[i + 1], x, x);
    } else {
      ScanIsLine(p, from + 1, i, x);
    }
  }

  lemma PiecewiseIsLine(p: seq<Point>, i: nat, x: real)
    requires Increasing(p) && OnSegment(p, i, x)
    ensures Piecewise(p, x) == Line(p[i], p[i + 1], x)
  {
    Ascending(p, 0, i);
    LineMonotone(p[i], p[i + 1], x, x);
    if x > p[0].x {
      ScanIsLine(p, 0, i, x);
    }
  }

  lemma LineStaysOnSegment(p: seq<Point>, i: nat, x: real)
    requires Increasing(p) && OnSegment(p, i, x)
    ensures Increasing(Swapped(p)) && OnSegment(Swapped(p), i, Line(p[i], p[i + 1], x))
  {
    LineMonotone(p[i], p[i + 1], p[i].x, x);
    if x <= p[i + 1].x {
      LineMonotone(p[i], p[i + 1], x, p[i + 1].x);
    }
  }

  lemma PiecewiseInverts(p: seq<Point>, x: real)
    requires Increasing(p) && p[0].x <= x
    ensures Piecewise(Swapped(p), Piecewise(p, x)) == x
    ensures Piecewise(p, x) >= p[0].y
  {
    var i := SomeSegment(p, 0, x);
    PiecewiseIsLine(p, i, x);
    LineStaysOnSegment(p, i, x);
    PiecewiseIsLine(Swapped(p), i, Line(p[i], p[i + 1], x));
    LineInverts(p[i], p[i + 1], x);
    Ascending(p, 0, i);
    LineMonotone(p[i], p[i + 1], p[i].x, x);
  }

  // ----- The table -----

  predicate StrictSeconds(anchors: seq<Anchor>) {
    forall i | 0 < i < |anchors| :: anchors[i - 1].seconds < anchors[i].seconds
  }

  lemma TablePoints(anchors: seq<Anchor>)
    requires ValidTable(anchors)
    ensures NonDecreasing(TickPoints(anchors)) && NonDecreasing(SecondsPoints(anchors))
    ensures SecondsPoints(anchors) == Swapped(TickPoints(anchors))
    ensures TickPoints(anchors) == Swapped(SecondsPoints(anchors))
    ensures |anchors| >= 2 && StrictSeconds(anchors) ==>
      Increasing(TickPoints(anchors)) && Increasing(SecondsPoints(anchors))
  {
  }

  lemma RoundMonotone(v: real, w: real)
    requires v <= w
    ensures RoundHalfAway(v) <= RoundHalfAway(w)
  {
  }

  lemma RoundWhole(n: int)
    ensures RoundHalfAway(n as real) == n
  {
  }

  lemma RoundNear(v: real)
    ensures -0.5 <= RoundHalfAway(v) as real - v <= 0.5
  {
  }

  lemma SecondsMonotone(anchors: seq<Anchor>, tick: real, later: real)
    requires ValidTable(anchors) && tick <= later
    ensures SecondsAt(anchors, tick) <= SecondsAt(anchors, later)
  {
    TablePoints(anchors);
    PiecewiseMonotone(TickPoints(anchors), tick, later);
  }

  lemma TickMonotone(anchors: seq<Anchor>, seconds: real, later: real)
    requires ValidTable(anchors) && seconds <= later
    ensures TickAt(anchors, seconds) <= TickAt(anchors, later)
  {
    TablePoints(anchors);
    PiecewiseMonotone(SecondsPoints(anchors), seconds, later);
    RoundMonotone(Piecewise(SecondsPoints(anchors), seconds), Piecewise(SecondsPoints(anchors), later));
  }

  predicate RoundTrips(anchors: seq<Anchor>, tick: nat)
    requires anchors != []
  {
    TickAt(anchors, SecondsAt(anchors, tick as real)) == tick
  }

  /** Every tick comes back, past the last anchor too, exactly when the table has a second anchor
      and its seconds strictly increase. */
  lemma RoundTripExactly(anchors: seq<Anchor>)
    requires ValidTable(anchors)
    ensures (forall tick: nat :: RoundTrips(anchors, tick)) <==> |anchors| >= 2 && StrictSeconds(anchors)
  {
    TablePoints(anchors);
    var p := TickPoints(anchors);
    if |anchors| >= 2 && StrictSeconds(anchors) {
      forall tick: nat
        ensures RoundTrips(anchors, tick)
      {
        PiecewiseInverts(p, tick as real);
        RoundWhole(tick);
      }
    } else if |anchors| == 1 {
      assert SecondsAt(anchors, 1.0) == anchors[0].seconds == SecondsAt(anchors, 0.0);
      assert !RoundTrips(anchors, 0) || !RoundTrips(anchors, 1);
    } else {
      var i: nat :| 0 < i < |anchors| && anchors[i - 1].seconds >= anchors[i].seconds;
      SecondsAtAnchor(anchors, i - 1);
      SecondsAtAnchor(anchors, i);
      assert !RoundTrips(anchors, anchors[i - 1].tick) || !RoundTrips(anchors, anchors[i].tick);
    }
  }

  /** One anchor: every tick reads as its second, which reads back as its tick. */
  lemma OneAnchorLosesTicks() returns (anchors: seq<Anchor>)
    ensures anchors == [Anchor(0, 0.0)] && ValidTable(anchors)
    ensures SecondsAt(anchors, 1.0) == 0.0 && TickAt(anchors, 0.0) == 0 && !RoundTrips(anchors, 1)
  {
    anchors := [Anchor(0, 0.0)];
    RoundWhole(0);
  }

  /** Two anchors at the same second: the tick of the later one reads back as the earlier one. */
  lemma EqualSecondsLoseTicks() returns (anchors: seq<Anchor>)
    ensures anchors == [Anchor(0, 0.0), Anchor(4, 1.0), Anchor(8, 1.0)] && ValidTable(anchors)
    ensures SecondsAt(anchors, 8.0) == 1.0 && TickAt(anchors, 1.0) == 4 && !RoundTrips(anchors, 8)
  {
    anchors := [Anchor(0, 0.0), Anchor(4, 1.0), Anchor(8, 1.0)];
    var p, q := TickPoints(anchors), SecondsPoints(anchors);
    assert p[0] == Point(0.0, 0.0) && p[1] == Point(4.0, 1.0) && p[2] == Point(8.0, 1.0);
    assert q[0] == Point(0.0, 0.0) && q[1] == Point(1.0, 4.0) && q[2] == Point(1.0, 8.0);
    assert Scan(p, 1, 8.0) == Interpolate(8.0, 4.0, 8.0, 1.0, 1.0);
    assert Scan(q, 0, 1.0) == Interpolate(1.0, 0.0, 1.0, 0.0, 4.0);
    RoundWhole(4);
  }

  lemma SecondsAtAnchor(anchors: seq<Anchor>, i: nat)
    requires ValidTable(anchors) && i < |anchors|
    ensures SecondsAt(anchors, anchors[i].tick as real) == anchors[i].seconds && anchors[i].tick >= 0
  {
    var p := TickPoints(anchors);
    if i > 0 {
      ScanAtAnchor(anchors, 0, i);
    }
  }

  lemma {:induction false} ScanAtAnchor(anchors: seq<Anchor>, from: nat, i: nat)
    requires ValidTable(anchors) && from < i < |anchors|
    ensures Scan(TickPoints(anchors), from, anchors[i].tick as real) == anchors[i].seconds
    ensures anchors[from].tick < anchors[i].tick
    decreases i - from
  {
    var p := TickPoints(anchors);
    if from + 1 == i {
      InterpolateIsLine(p[from], p[i], p[i].x);
      LineMonotone(p[from], p[i], p[i].x, p[i].x);
    } else {
      ScanAtAnchor(anchors, from + 1, i);
    }
  }

  /** Going to ticks and back lands within half a tick, at the rate of the segment `seconds` is on. */
  lemma SecondsNearTick(anchors: seq<Anchor>, i: nat, seconds: real)
    requires ValidTable(anchors) && StrictSeconds(anchors)
    requires OnSegment(SecondsPoints(anchors), i, seconds)
    ensures var rate := Slope(TickPoints(anchors)[i], TickPoints(anchors)[i + 1]);
      -(rate / 2.0) <= SecondsAt(anchors, TickAt(anchors, seconds) as real) - seconds <= rate / 2.0
  {
    TablePoints(anchors);
    var p, q := TickPoints(anchors), SecondsPoints(anchors);
    var x := Line(q[i], q[i + 1], seconds);
    PiecewiseIsLine(q, i, seconds);
    LineStaysOnSegment(q, i, seconds);
    LineInverts(q[i], q[i + 1], seconds);
    var n := RoundHalfAway(x);
    RoundNear(x);
    RoundStays(anchors, i, x);
    PiecewiseIsLine(p, i, n as real);
    NearOnLine(p[i], p[i + 1], x, n as real);
  }

  lemma NearOnLine(a: Point, b: Point, x: real, z: real)
    requires a.x < b.x && a.y <= b.y && -0.5 <= z - x <= 0.5
    ensures -(Slope(a, b) / 2.0) <= Line(a, b, z) - Line(a, b, x) <= Slope(a, b) / 2.0
  {
    SlopeSpans(a, b);
    LineSteps(a, b, x, z);
    HalfBand(Line(a, b, z) - Line(a, b, x), z - x, Slope(a, b));
  }

  lemma HalfBand(step: real, d: real, k: real)
    requires step == d * k && -0.5 <= d <= 0.5 && k >= 0.0
    ensures -(k / 2.0) <= step <= k / 2.0
  {
    MulNonneg(0.5 - d, k);
    MulNonneg(0.5 + d, k);
    Distribute(0.5, d, k);
    Distribute(0.5, -d, k);
  }

  /** Segment ends are whole ticks, so rounding never leaves the segment. */
  lemma RoundStays(anchors: seq<Anchor>, i: nat, x: real)
    requires OnSegment(TickPoints(anchors), i, x)
    ensures OnSegment(TickPoints(anchors), i, RoundHalfAway(x) as real)
  {
    RoundWhole(anchors[i].tick);
    RoundWhole(anchors[i + 1].tick);
    RoundMonotone(anchors[i].tick as real, x);
    if x <= anchors[i + 1].tick as real {
      RoundMonotone(x, anchors[i + 1].tick as real);
    }
  }

  /** A later tick is strictly later in seconds when the seconds strictly increase. */
  lemma SecondsStrict(anchors: seq<Anchor>, tick: nat, later: nat)
    requires ValidTable(anchors) && |anchors| >= 2 && StrictSeconds(anchors) && tick < later
    ensures 0.0 <= SecondsAt(anchors, tick as real) < SecondsAt(anchors, later as real)
  {
    SecondsMonotone(anchors, tick as real, later as real);
    SecondsMonotone(anchors, 0.0, tick as real);
    SecondsAtAnchor(anchors, 0);
    RoundTripExactly(anchors);
    assert RoundTrips(anchors, tick) && RoundTrips(anchors, later);
  }

  // ----- Reading the table -----

  lemma {:induction false} Sorted(p: seq<Point>, i: nat, j: nat)
    requires NonDecreasing(p) && i <= j < |p|
    ensures p[i].x <= p[j].x && p[i].y <= p[j].y
    decreases j
  {
    if i < j {
      Sorted(p, i, j - 1);
    }
  }

  /** The scan stops at the segment that holds the value, whatever segments of no length come before. */
  lemma {:induction false} ScanFinds(p: seq<Point>, from: nat, i: nat, x: real)
    requires NonDecreasing(p) && from <= i && i + 1 < |p| && p[i].x < x && (x <= p[i + 1].x || i + 2 == |p|)
    requires p[i].x < p[i + 1].x
    ensures Scan(p, from, x) == Line(p[i], p[i + 1], x)
    decreases i - from
  {
    if from == i {
      InterpolateIsLine(p[i], p[i + 1], x);
      ExtrapolateIsLine(p[i], p[i + 1], x);
    } else {
      Sorted(p, from + 1, i);
      ScanFinds(p, from + 1, i, x);
    }
  }

  /** Past a last segment of no length the last value stays. */
  lemma {:induction false} ScanEnds(p: seq<Point>, from: nat, x: real)
    requires NonDecreasing(p) && from < |p| && p[|p| - 1].x < x && (|p| == 1 || p[|p| - 2].x == p[|p| - 1].x)
    ensures Scan(p, from, x) == p[|p| - 1].y
    decreases |p| - from
  {
    if from + 1 < |p| {
      Sorted(p, from + 1, |p| - 1);
      ScanEnds(p, from + 1, x);
    }
  }

  /** `y` is to `x` as between these two points, in proportion. */
  predicate InProportion(a: Point, b: Point, x: real, y: real) { (y - a.y) * (b.x - a.x) == (x - a.x) * (b.y - a.y) }

  lemma LineInProportion(a: Point, b: Point, x: real)
    requires a.x < b.x && a.y <= b.y
    ensures InProportion(a, b, x, Line(a, b, x))
  {
    SlopeSpans(a, b);
    var k := Slope(a, b);
    assert (x - a.x) * k * (b.x - a.x) == (x - a.x) * ((b.x - a.x) * k);
  }

  lemma PiecewiseInProportion(p: seq<Point>, i: nat, x: real)
    requires NonDecreasing(p) && i + 1 < |p| && p[i].x < p[i + 1].x
    requires p[i].x < x && (x <= p[i + 1].x || i + 2 == |p|)
    ensures InProportion(p[i], p[i + 1], x, Piecewise(p, x))
  {
    Sorted(p, 0, i);
    ScanFinds(p, 0, i, x);
    LineInProportion(p[i], p[i + 1], x);
  }

  lemma PiecewiseEnds(p: seq<Point>, x: real)
    requires NonDecreasing(p) && p[|p| - 1].x < x && (|p| == 1 || p[|p| - 2].x == p[|p| - 1].x)
    ensures Piecewise(p, x) == p[|p| - 1].y
  {
    Sorted(p, 0, |p| - 1);
    ScanEnds(p, 0, x);
  }

  lemma StartInProportion(a: Point, b: Point)
    ensures InProportion(a, b, a.x, a.y)
  {
  }

  /** An anchor as a point of ticks and seconds, and the other way round. */
  function ByTick(a: Anchor): Point { Point(a.tick as real, a.seconds) }

  function BySecond(a: Anchor): Point { Point(a.seconds, a.tick as real) }

  /** From one anchor to the next, and past the last two, seconds grow with ticks in the anchors' proportion. */
  lemma SecondsInProportion(anchors: seq<Anchor>, i: nat, tick: real)
    requires ValidTable(anchors) && i + 1 < |anchors|
    requires anchors[i].tick as real <= tick && (tick <= anchors[i + 1].tick as real || i + 2 == |anchors|)
    ensures InProportion(ByTick(anchors[i]), ByTick(anchors[i + 1]), tick, SecondsAt(anchors, tick))
  {
    var p := TickPoints(anchors);
    TablePoints(anchors);
    assert anchors[i].tick < anchors[i + 1].tick && p[i] == ByTick(anchors[i]) && p[i + 1] == ByTick(anchors[i + 1]);
    if tick > p[i].x {
      PiecewiseInProportion(p, i, tick);
    } else {
      SecondsAtAnchor(anchors, i);
      StartInProportion(p[i], p[i + 1]);
    }
  }

  /** One anchor alone gives its second for every tick. */
  lemma SecondsOfOne(anchors: seq<Anchor>, tick: real)
    requires ValidTable(anchors) && |anchors| == 1
    ensures SecondsAt(anchors, tick) == anchors[0].seconds
  {
    TablePoints(anchors);
    if tick > TickPoints(anchors)[0].x {
      PiecewiseEnds(TickPoints(anchors), tick);
    }
  }

  /** A value rounds to the whole number nearest to it, and halfway to the one further from zero. */
  lemma RoundExactly(v: real, n: int)
    ensures RoundHalfAway(v) == n
      <==> if v >= 0.0 then n as real - 0.5 <= v < n as real + 0.5 else n as real - 0.5 < v <= n as real + 0.5
  {
  }

  /** Where the seconds of two anchors differ, the tick is the whole number nearest to the anchors'
      proportion. */
  lemma TicksInProportion(anchors: seq<Anchor>, i: nat, seconds: real) returns (tick: real)
    requires ValidTable(anchors) && i + 1 < |anchors| && anchors[i].seconds < anchors[i + 1].seconds
    requires anchors[i].seconds < seconds && (seconds <= anchors[i + 1].seconds || i + 2 == |anchors|)
    ensures InProportion(BySecond(anchors[i]), BySecond(anchors[i + 1]), seconds, tick)
    ensures TickAt(anchors, seconds) == RoundHalfAway(tick)
  {
    var p := SecondsPoints(anchors);
    TablePoints(anchors);
    assert p[i] == BySecond(anchors[i]) && p[i + 1] == BySecond(anchors[i + 1]);
    PiecewiseInProportion(p, i, seconds);
    tick := Piecewise(p, seconds);
  }

  /** Up to the first anchor the tick is zero, and past a last segment that takes no time, or one anchor
      alone, the last anchor's. */
  lemma TicksAtEnds(anchors: seq<Anchor>, seconds: real)
    requires ValidTable(anchors)
    ensures seconds <= anchors[0].seconds ==> TickAt(anchors, seconds) == 0
    ensures var n := |anchors|;
      (n == 1 || anchors[n - 2].seconds == anchors[n - 1].seconds) && anchors[n - 1].seconds < seconds ==>
        TickAt(anchors, seconds) == anchors[n - 1].tick
  {
    var p := SecondsPoints(anchors);
    TablePoints(anchors);
    RoundWhole(anchors[0].tick);
    RoundWhole(anchors[|anchors| - 1].tick);
    if (|p| == 1 || p[|p| - 2].x == p[|p| - 1].x) && p[|p| - 1].x < seconds {
      Sorted(p, 0, |p| - 1);
      PiecewiseEnds(p, seconds);
    }
  }
}
