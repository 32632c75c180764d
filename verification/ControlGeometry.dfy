/** Where an adjustable control is touched: points on its track for a ratio of its range, kept
    away from both ends by an inset that depends on the length of the track, and the probes that
    are tried around the point aimed at and the point the control shows now. */
module ControlGeometry {
  import opened Collections
  import opened Wrappers

  datatype Axis = Horizontal | Vertical

  datatype Bounds = Bounds(left: int, top: int, right: int, bottom: int)

  datatype Point = Point(x: int, y: int)

  datatype Limits = Limits(min: real, max: real)

  type Range = r: Limits | r.min < r.max witness Limits(0.0, 1.0)

  function Max(a: int, b: int): int { if a < b then b else a }
  function Min(a: int, b: int): int { if a < b then a else b }
  function RMax(a: real, b: real): real { if a < b then b else a }
  function RMin(a: real, b: real): real { if a < b then a else b }

  function Width(b: Bounds): int { Max(1, b.right - b.left) }
  function Height(b: Bounds): int { Max(1, b.bottom - b.top) }

  /** Eight hundredths of the length, at least eight pixels. */
  function Inset(length: int): int { Max(8, length * 8 / 100) }

  function Usable(length: int): int { Max(1, length - 2 * Inset(length)) }

  function Clamped(ratio: real): real { RMax(0.0, RMin(1.0, ratio)) }

  function Times(k: real, share: real): real { k * share }

  /** How far along the usable part of a track of `length` a share of the range is. */
  function Offset(length: int, ratio: real): real { Times(Usable(length) as real, Clamped(ratio)) }

  function ControlPoint(b: Bounds, ratio: real, axis: Axis): Point {
    if axis == Vertical then
      Point((b.left + b.right) / 2,
            (b.bottom as real - Inset(Height(b)) as real - Offset(Height(b), ratio)).Floor)
    else
      Point((b.left as real + Inset(Width(b)) as real + Offset(Width(b), ratio)).Floor,
            (b.top + b.bottom) / 2)
  }

  // ---------- the track ----------

  function Start(b: Bounds, axis: Axis): int { if axis == Vertical then b.top else b.left }
  function End(b: Bounds, axis: Axis): int { if axis == Vertical then b.bottom else b.right }
  function Along(p: Point, axis: Axis): int { if axis == Vertical then p.y else p.x }

  /** At least eight pixels inside both ends. */
  predicate Inside(p: Point, b: Bounds, axis: Axis) { Start(b, axis) + 8 <= Along(p, axis) <= End(b, axis) - 8 }

  lemma UsableFits(length: int)
    requires length >= 17
    ensures Inset(length) >= 8 && 2 * Inset(length) + Usable(length) <= length
  {
    if length * 8 / 100 > 8 { assert length * 8 / 100 * 100 <= length * 8; }
  }

  lemma TimesMonotone(k: real, a: real, b: real)
    requires k >= 0.0 && a <= b
    ensures Times(k, a) <= Times(k, b)
  {
    Product(k, b - a);
    assert k * (b - a) == k * b - k * a;
  }

  lemma Product(k: real, d: real)
    requires k >= 0.0 && d >= 0.0
    ensures k * d >= 0.0
  {
  }

  lemma TimesWithin(k: real, share: real)
    requires k >= 0.0 && 0.0 <= share <= 1.0
    ensures 0.0 <= Times(k, share) <= k
  {
    Product(k, share);
    TimesMonotone(k, share, 1.0);
  }

  lemma OffsetWithin(length: int, ratio: real)
    ensures 0.0 <= Offset(length, ratio) <= Usable(length) as real
  {
    TimesWithin(Usable(length) as real, Clamped(ratio));
  }

  lemma OffsetMonotone(length: int, low: real, high: real)
    requires low <= high
    ensures Offset(length, low) <= Offset(length, high)
  {
    TimesMonotone(Usable(length) as real, Clamped(low), Clamped(high));
  }

  lemma LongTrackInside(b: Bounds, ratio: real, axis: Axis)
    requires End(b, axis) - Start(b, axis) >= 17
    ensures Inside(ControlPoint(b, ratio, axis), b, axis)
  {
    var length := End(b, axis) - Start(b, axis);
    UsableFits(length);
    OffsetWithin(length, ratio);
    assert length == if axis == Vertical then Height(b) else Width(b);
  }

  /** The point for the far end of a track of at most sixteen pixels is too close to an end. */
  lemma ShortTrackOutside(b: Bounds, axis: Axis)
    requires End(b, axis) - Start(b, axis) < 17
    ensures !Inside(ControlPoint(b, 1.0, axis), b, axis)
  {
    var length := Max(1, End(b, axis) - Start(b, axis));
    assert Inset(length) == 8 && Usable(length) == 1;
    assert Offset(length, 1.0) == 1.0;
    assert length == if axis == Vertical then Height(b) else Width(b);
  }

  /** Every ratio gives a point at least eight pixels inside both ends exactly when the track is
      at least seventeen pixels long. */
  lemma InsideExactly(b: Bounds, axis: Axis)
    ensures (forall ratio :: Inside(ControlPoint(b, ratio, axis), b, axis)) <==> End(b, axis) - Start(b, axis) >= 17
  {
    if End(b, axis) - Start(b, axis) >= 17 {
      forall ratio ensures Inside(ControlPoint(b, ratio, axis), b, axis) { LongTrackInside(b, ratio, axis); }
    } else {
      ShortTrackOutside(b, axis);
    }
  }

  /** A larger share of the range is never nearer the low end of the track, which is the bottom
      of a vertical one. */
  lemma PointFollowsRatio(b: Bounds, low: real, high: real, axis: Axis)
    requires low <= high
    ensures var p, q := ControlPoint(b, low, axis), ControlPoint(b, high, axis);
      if axis == Vertical then q.y <= p.y && q.x == p.x else p.x <= q.x && p.y == q.y
  {
    OffsetMonotone(if axis == Vertical then Height(b) else Width(b), low, high);
  }

  // ---------- the point for a target value ----------

  function Sign(x: real): int { if x > 0.0 then 1 else if x < 0.0 then -1 else 0 }

  /** The share of the range aimed at: the target, moved off the ends and against the direction
      of travel. */
  function SafeRatio(b: Bounds, target: real, current: Option<real>, r: Range, axis: Axis): real {
    var range := RMax(1.0, r.max - r.min);
    var step := 1.0 / range;
    var direction := if current.None? then 0 else Sign(target - current.value);
    var length := if axis == Vertical then Height(b) else Width(b);
    var window := Max(3, (range * 0.1).Floor) as real;
    var directionBias := if direction > 0 then -step * 0.15 else if direction < 0 then step * 0.65 else 0.0;
    var pixels := RMin(0.03, RMax(0.005, 2.0 / length as real));
    var margin := RMax(step * 0.5, pixels);
    var edgeBias := if target - r.min <= window then margin
                    else if r.max - target <= window then RMax(step * 0.4, margin * 0.75) else 0.0;
    RMin(1.0 - margin * 0.25, RMax(margin, (target - r.min) / range + step / 2.0 + directionBias + edgeBias))
  }

  function TargetPoint(b: Bounds, target: real, current: Option<real>, r: Range, axis: Axis): Point {
    ControlPoint(b, SafeRatio(b, target, current, r, axis), axis)
  }

  function CurrentPoint(b: Bounds, current: Option<real>, r: Range, axis: Axis): Point {
    ControlPoint(b, if current.Some? then (current.value - r.min) / (r.max - r.min) else 0.5, axis)
  }

  /** Whatever the target, even outside the range, the ratio stays strictly off both ends, so the
      clamp of the point never acts on it. */
  lemma SafeRatioOffEnds(b: Bounds, target: real, current: Option<real>, r: Range, axis: Axis)
    ensures 0.005 <= SafeRatio(b, target, current, r, axis) <= 0.99875
    ensures Clamped(SafeRatio(b, target, current, r, axis)) == SafeRatio(b, target, current, r, axis)
  {
    var range := RMax(1.0, r.max - r.min);
    Reciprocal(range);
  }

  lemma Reciprocal(x: real)
    requires x >= 1.0
    ensures 0.0 < 1.0 / x <= 1.0
  {
  }

  // ---------- probes ----------

  function Cross(b: Bounds, axis: Axis): int { if axis == Horizontal then Height(b) else Width(b) }

  function ClampPoint(p: Point, b: Bounds, axis: Axis): Point {
    var slack := Max(Width(b), Height(b));
    if axis == Horizontal then Point(Max(b.left, Min(b.right, p.x)), Max(b.top, Min(b.bottom + slack, p.y)))
    else Point(Max(b.left, Min(b.right + slack, p.x)), Max(b.top, Min(b.bottom, p.y)))
  }

  /** A point beside the track, level with `p`. */
  function Beside(p: Point, bump: int, b: Bounds, axis: Axis): Point {
    if axis == Horizontal then Point(p.x, b.bottom + bump) else Point(b.right + bump, p.y)
  }

  ghost predicate AllInside(ps: seq<Point>, b: Bounds, axis: Axis) {
    forall i :: 0 <= i < |ps| ==> Inside(ps[i], b, axis)
  }

  /** The points to try, before repeats are dropped. */
  function Candidates(aim: Point, now: Point, b: Bounds, axis: Axis): (ps: seq<Point>)
    ensures |ps| == 6 && ps[0] == ClampPoint(aim, b, axis) && ps[1] == ClampPoint(now, b, axis)
  {
    var near, far := Max(24, Cross(b, axis) * 75 / 100), Max(40, Cross(b, axis) * 150 / 100);
    [ClampPoint(aim, b, axis), ClampPoint(now, b, axis),
     ClampPoint(Beside(aim, near, b, axis), b, axis), ClampPoint(Beside(now, near, b, axis), b, axis),
     ClampPoint(Beside(aim, far, b, axis), b, axis), ClampPoint(Beside(now, far, b, axis), b, axis)]
  }

  lemma CandidatesInside(aim: Point, now: Point, b: Bounds, axis: Axis)
    requires Inside(aim, b, axis) && Inside(now, b, axis)
    ensures AllInside(Candidates(aim, now, b, axis), b, axis)
  {
  }

  method WithoutRepeats(points: seq<Point>) returns (kept: seq<Point>)
    ensures Unique(kept) && |kept| <= |points| && forall p :: p in kept <==> p in points
    ensures points != [] ==> kept != [] && kept[0] == points[0]
  {
    kept := [];
    for i := 0 to |points|
      invariant |kept| <= i && Unique(kept) && forall p :: p in kept <==> p in points[..i]
      invariant i > 0 ==> kept != [] && kept[0] == points[0]
    {
      assert points[..i + 1] == points[..i] + [points[i]];
      if points[i] !in kept { kept := kept + [points[i]]; }
    }
    assert points[..|points|] == points;
  }

  /** The points tried one after the other: the target first, no point twice, and none nearer to
      an end of the track than eight pixels if the track is long enough. */
  method ProbePoints(b: Bounds, target: real, current: Option<real>, r: Range, axis: Axis) returns (probes: seq<Point>)
    ensures 1 <= |probes| <= 6 && Unique(probes)
    ensures probes[0] == ClampPoint(TargetPoint(b, target, current, r, axis), b, axis)
    ensures forall p :: p in probes <==>
              p in Candidates(TargetPoint(b, target, current, r, axis), CurrentPoint(b, current, r, axis), b, axis)
    ensures End(b, axis) - Start(b, axis) >= 17 ==> AllInside(probes, b, axis)
  {
    var aim, now := TargetPoint(b, target, current, r, axis), CurrentPoint(b, current, r, axis);
    var points := Candidates(aim, now, b, axis);
    probes := WithoutRepeats(points);
    if End(b, axis) - Start(b, axis) >= 17 {
      LongTrackInside(b, SafeRatio(b, target, current, r, axis), axis);
      LongTrackInside(b, if current.Some? then (current.value - r.min) / (r.max - r.min) else 0.5, axis);
      CandidatesInside(aim, now, b, axis);
      forall i | 0 <= i < |probes| ensures Inside(probes[i], b, axis) { assert probes[i] in points; }
    }
  }
}
