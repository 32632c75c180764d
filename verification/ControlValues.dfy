/** The value an adjustment aims at: the requested one, moved to the control's grid.  The grid
    starts at the lower end of the range and has the step of the control, and what lies on it is
    then rounded to the decimals the step is written with; everything is computed in exact
    numbers here.  The distance this can be from the request is bounded. */
module ControlValues {
  import opened G = ControlGeometry
  import opened Wrappers

  type Positive = x: real | x > 0.0 witness 1.0

  /** The step of a control, and the last decimal place it is written with. */
  datatype Step = Step(size: Positive, place: Positive)

  function Abs(x: real): real { if x < 0.0 then -x else x }

  function Rounded(x: real): int { (x + 0.5).Floor }

  /** The multiple of `unit` nearest to `x`. */
  function Multiple(x: real, unit: Positive): real { Times(Rounded(x / unit) as real, unit) }

  /** `toFixed`: the nearest multiple of the place, halves away from zero. */
  function ToPlace(x: real, place: Positive): real {
    if x < 0.0 then -Multiple(-x, place) else Multiple(x, place)
  }

  function Bounded(x: real, r: Range): real { RMax(r.min, RMin(r.max, x)) }

  /** The grid point nearest to the target, counted from the minimum. */
  function OnGrid(target: real, r: Range, s: Step): real {
    r.min + Multiple(target - r.min, s.size)
  }

  function Quantised(target: real, r: Range, step: Option<Step>): real {
    match step
    case None => target
    case Some(s) => ToPlace(Bounded(OnGrid(target, r, s), r), s.place)
  }

  function NormalisedTarget(target: real, range: Option<Range>, step: Option<Step>): real {
    if range.Some? then Quantised(target, range.value, step) else target
  }

  function EffectiveTolerance(requested: Option<real>, range: Option<Range>, step: Option<Step>): real {
    if requested.Some? then requested.value
    else if step.Some? || range.None? then 0.0
    else RMax(0.0, 0.01 * Abs(range.value.max - range.value.min))
  }

  /** How far the grid may move a target: half a step, and half a place. */
  function Slack(range: Option<Range>, step: Option<Step>): real {
    if range.Some? && step.Some? then step.value.size / 2.0 + step.value.place / 2.0 else 0.0
  }

  lemma RoundedNear(x: real)
    ensures -0.5 <= Rounded(x) as real - x <= 0.5
  {
    var n := (x + 0.5).Floor;
    assert n as real <= x + 0.5 < (n + 1) as real == n as real + 1.0;
  }

  lemma Scaled(d: real, unit: real)
    requires -0.5 <= d <= 0.5 && unit > 0.0
    ensures -(unit / 2.0) <= Times(d, unit) <= unit / 2.0
  {
    NotNegative(0.5 - d, unit);
    NotNegative(d + 0.5, unit);
    assert (0.5 - d) * unit == unit / 2.0 - d * unit && (d + 0.5) * unit == d * unit + unit / 2.0;
  }

  lemma NotNegative(a: real, b: real)
    requires a >= 0.0 && b >= 0.0
    ensures a * b >= 0.0
  {
  }

  lemma ProductNear(n: real, q: real, unit: real)
    requires -0.5 <= n - q <= 0.5 && unit > 0.0
    ensures Abs(Times(n, unit) - Times(q, unit)) <= unit / 2.0
  {
    var d := n - q;
    Scaled(d, unit);
    assert n == q + d;
    Distribute(q, d, unit);
  }

  lemma Distribute(q: real, d: real, unit: real)
    ensures Times(q + d, unit) == Times(q, unit) + Times(d, unit)
  {
  }

  /** Rounding to a multiple of `unit` moves a number by at most half of it. */
  lemma MultipleNear(x: real, unit: Positive)
    ensures Abs(Multiple(x, unit) - x) <= unit / 2.0
  {
    RoundedNear(x / unit);
    ProductNear(Rounded(x / unit) as real, x / unit, unit);
    Quotient(x, unit);
  }

  lemma Quotient(x: real, unit: real)
    requires unit > 0.0
    ensures Times(x / unit, unit) == x
  {
  }

  lemma ToPlaceNear(x: real, place: Positive)
    ensures Abs(ToPlace(x, place) - x) <= place / 2.0
  {
    MultipleNear(if x < 0.0 then -x else x, place);
  }

  /** Clamping to a range that holds the target takes nothing further away from it. */
  lemma BoundedNear(x: real, target: real, r: Range)
    requires r.min <= target <= r.max
    ensures Abs(Bounded(x, r) - target) <= Abs(x - target)
  {
  }

  lemma Triangle(a: real, b: real, c: real, near: real, far: real)
    requires Abs(a - b) <= near && Abs(b - c) <= far
    ensures Abs(a - c) <= near + far
  {
  }

  /** A target in the control's range is moved by at most half a step and half a place. */
  lemma QuantisedNear(target: real, range: Option<Range>, step: Option<Step>)
    requires range.Some? ==> range.value.min <= target <= range.value.max
    ensures Abs(NormalisedTarget(target, range, step) - target) <= Slack(range, step)
  {
    if range.Some? && step.Some? {
      StepNear(target, range.value, step.value);
      var onGrid := Bounded(OnGrid(target, range.value, step.value), range.value);
      BoundedNear(OnGrid(target, range.value, step.value), target, range.value);
      ToPlaceNear(onGrid, step.value.place);
      Triangle(ToPlace(onGrid, step.value.place), onGrid, target, step.value.place / 2.0, step.value.size / 2.0);
    }
  }

  lemma StepNear(target: real, r: Range, s: Step)
    ensures Abs(OnGrid(target, r, s) - target) <= s.size / 2.0
  {
    MultipleNear(target - r.min, s.size);
  }
}
