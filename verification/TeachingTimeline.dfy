/** The anchor table between ticks and seconds (web/mvp1/teaching-timeline.js).

    Both directions are the same scan, over (tick, seconds) points one way and over
    (seconds, tick) points the other; `Piecewise` is that scan. */
module TeachingTimeline {
  import opened Prelude

  datatype Anchor = Anchor(tick: int, seconds: real)

  datatype Point = Point(x: real, y: real)

  /** What the table check accepts, stated between neighbours as the source does. */
  predicate ValidTable(anchors: seq<Anchor>) {
    && anchors != []
    && (forall a <- anchors :: a.tick >= 0 && a.seconds >= 0.0)
    && anchors[0].tick == 0
    && (forall i | 0 < i < |anchors| :: anchors[i - 1].tick < anchors[i].tick)
    && (forall i | 0 < i < |anchors| :: anchors[i - 1].seconds <= anchors[i].seconds)
  }

  function TickPoints(anchors: seq<Anchor>): (p: seq<Point>)
    ensures |p| == |anchors|
  {
    seq(|anchors|, i requires 0 <= i < |anchors| => Point(anchors[i].tick as real, anchors[i].seconds))
  }

  function SecondsPoints(anchors: seq<Anchor>): (p: seq<Point>)
    ensures |p| == |anchors|
  {
    seq(|anchors|, i requires 0 <= i < |anchors| => Point(anchors[i].seconds, anchors[i].tick as real))
  }

  function Interpolate(v: real, lowerIn: real, upperIn: real, lowerOut: real, upperOut: real): real {
    if upperIn == lowerIn then lowerOut
    else lowerOut + (v - lowerIn) / (upperIn - lowerIn) * (upperOut - lowerOut)
  }

  function Extrapolate(v: real, lowerIn: real, upperIn: real, lowerOut: real, upperOut: real): real
    requires lowerIn != upperIn
  {
    var rate := (upperOut - lowerOut) / (upperIn - lowerIn);
    upperOut + (v - upperIn) * rate
  }

  function Beyond(p: seq<Point>, x: real): real
    requires p != []
  {
    var upper := p[|p| - 1];
    if |p| < 2 || p[|p| - 2].x == upper.x then upper.y
    else Extrapolate(x, p[|p| - 2].x, upper.x, p[|p| - 2].y, upper.y)
  }

  function Scan(p: seq<Point>, i: nat, x: real): real
    requires i < |p|
    decreases |p| - i
  {
    if i + 1 == |p| then Beyond(p, x)
    else if x <= p[i + 1].x then Interpolate(x, p[i].x, p[i + 1].x, p[i].y, p[i + 1].y)
    else Scan(p, i + 1, x)
  }

  function Piecewise(p: seq<Point>, x: real): real
    requires p != []
  {
    if x <= p[0].x then p[0].y else Scan(p, 0, x)
  }

  function RoundHalfAway(v: real): int {
    if v >= 0.0 then (v + 0.5).Floor else -((-v + 0.5).Floor)
  }

  function SecondsAt(anchors: seq<Anchor>, tick: real): real
    requires anchors != []
  {
    Piecewise(TickPoints(anchors), tick)
  }

  function TickAt(anchors: seq<Anchor>, seconds: real): int
    requires anchors != []
  {
    RoundHalfAway(Piecewise(SecondsPoints(anchors), seconds))
  }

  datatype RangeError = BadTable | BadArgument

  method RequireAnchorTable(anchors: seq<Anchor>) returns (ok: bool)
    ensures ok == ValidTable(anchors)
  {
    if |anchors| == 0 {
      return false;
    }
    for i := 0 to |anchors|
      invariant forall k | 0 <= k < i :: anchors[k].tick >= 0 && anchors[k].seconds >= 0.0
    {
      if anchors[i].tick < 0 || anchors[i].seconds < 0.0 {
        assert anchors[i] in anchors;
        return false;
      }
    }
    if anchors[0].tick != 0 {
      return false;
    }
    for i := 1 to |anchors|
      invariant forall k | 0 < k < i :: anchors[k - 1].tick < anchors[k].tick
      invariant forall k | 0 < k < i :: anchors[k - 1].seconds <= anchors[k].seconds
    {
      if !(anchors[i].tick > anchors[i - 1].tick) || anchors[i].seconds < anchors[i - 1].seconds {
        return false;
      }
    }
    return true;
  }

  method SecondsAtTick(anchors: seq<Anchor>, tick: real) returns (r: Result<real, RangeError>)
    ensures r == if !ValidTable(anchors) then Failure(BadTable)
                 else if tick < 0.0 then Failure(BadArgument)
                 else Success(SecondsAt(anchors, tick))
  {
    var ok := RequireAnchorTable(anchors);
    if !ok {
      return Failure(BadTable);
    }
    if tick < 0.0 {
      return Failure(BadArgument);
    }
    if tick <= anchors[0].tick as real {
      return Success(anchors[0].seconds);
    }
    ghost var p := TickPoints(anchors);
    for i := 0 to |anchors| - 1
      invariant Scan(p, 0, tick) == Scan(p, i, tick)
    {
      var lower, upper := anchors[i], anchors[i + 1];
      if tick <= upper.tick as real {
        return Success(Interpolate(tick, lower.tick as real, upper.tick as real, lower.seconds, upper.seconds));
      }
    }
    var upper := anchors[|anchors| - 1];
    var lower := if |anchors| < 2 then anchors[0] else anchors[|anchors| - 2];
    if upper.tick == lower.tick {
      return Success(upper.seconds);
    }
    return Success(Extrapolate(tick, lower.tick as real, upper.tick as real, lower.seconds, upper.seconds));
  }

  method TickAtSeconds(anchors: seq<Anchor>, seconds: real) returns (r: Result<int, RangeError>)
    ensures r == if !ValidTable(anchors) then Failure(BadTable)
                 else if seconds < 0.0 then Failure(BadArgument)
                 else Success(TickAt(anchors, seconds))
  {
    var ok := RequireAnchorTable(anchors);
    if !ok {
      return Failure(BadTable);
    }
    if seconds < 0.0 {
      return Failure(BadArgument);
    }
    if seconds <= anchors[0].seconds {
      return Success(anchors[0].tick);
    }
    ghost var p := SecondsPoints(anchors);
    for i := 0 to |anchors| - 1
      invariant Scan(p, 0, seconds) == Scan(p, i, seconds)
    {
      var lower, upper := anchors[i], anchors[i + 1];
      if seconds <= upper.seconds {
        if upper.seconds == lower.seconds {
          return Success(lower.tick);
        }
        return Success(RoundHalfAway(
          Interpolate(seconds, lower.seconds, upper.seconds, lower.tick as real, upper.tick as real)));
      }
    }
    var upper := anchors[|anchors| - 1];
    var lower := if |anchors| < 2 then anchors[0] else anchors[|anchors| - 2];
    if upper.seconds == lower.seconds || upper.tick == lower.tick {
      return Success(upper.tick);
    }
    return Success(RoundHalfAway(
      Extrapolate(seconds, lower.seconds, upper.seconds, lower.tick as real, upper.tick as real)));
  }

  datatype FocusRange = FocusRange(startSeconds: real, endSeconds: real)

  method ResolveFocusRangeSeconds(anchors: seq<Anchor>, startTick: int, endTick: int)
    returns (r: Result<FocusRange, RangeError>)
    ensures r == if endTick <= startTick then Failure(BadArgument)
                 else if !ValidTable(anchors) then Failure(BadTable)
                 else if startTick < 0 then Failure(BadArgument)
                 else Success(FocusRange(SecondsAt(anchors, startTick as real), SecondsAt(anchors, endTick as real)))
  {
    if endTick <= startTick {
      return Failure(BadArgument);
    }
    var start := SecondsAtTick(anchors, startTick as real);
    if start.Failure? {
      return Failure(start.error);
    }
    var end := SecondsAtTick(anchors, endTick as real);
    return if end.Success? then Success(FocusRange(start.value, end.value)) else Failure(BadArgument);
  }
}
