/** Driving an adjustable control to a value: the attempts loop and its four strategies, on a
    device that may answer anything. */
module Adjustment {
  import opened Wrappers
  import opened G = ControlGeometry
  import opened ControlValues

  /** What one attempt works on.  `direct`, `up` and `down`: actions the element offers; `setter`
      and `adjuster`: calls the platform has; `labelled`: the state was inferred from labels. */
  datatype Plan = Plan(
    actionable: bool, adjustable: bool, labelled: bool, direct: bool, setter: bool, up: bool, down: bool,
      adjuster: bool,
    bounds: Option<Bounds>, axis: Axis, range: Option<Range>, step: Option<Step>, current: Option<real>,
      target: real, tolerance: real)

  datatype Dispatch =
    | SetValue(value: real)
    | Nudge(increment: bool)
    | Tap(at: Point, track: Bounds, axis: Axis)
    | Swipe(from: Point, to: Point, track: Bounds, axis: Axis)

  /** What happened on the device: a control action sent, the value of the control read off a
      tree, or read to verify an action. */
  datatype Event = Sent(action: Dispatch) | Read(value: real) | Verified(value: real, target: real, tolerance: real)

  datatype Result = Success(observed: real, plan: Plan, attempts: nat) | Failure(attempts: nat)

  datatype Outcome = Next | Retry | Finished(result: Result)

  /** The control as the current iteration knows it. */
  datatype Iteration = Iteration(plan: Plan, observed: real, within: bool)

  function Dispatched(log: seq<Event>): nat {
    if log == [] then 0 else Dispatched(log[..|log| - 1]) + if log[|log| - 1].Sent? then 1 else 0
  }

  lemma DispatchedGrows(log: seq<Event>, e: Event)
    ensures Dispatched(log + [e]) == Dispatched(log) + if e.Sent? then 1 else 0
  {
  }

  /** A verification that found the target reached. */
  predicate Hit(e: Event) { e.Verified? && Abs(e.value - e.target) <= e.tolerance }

  ghost predicate NoHits(log: seq<Event>) { forall i :: 0 <= i < |log| ==> !Hit(log[i]) }

  ghost predicate Seen(log: seq<Event>, value: real) {
    exists i :: 0 <= i < |log| && !log[i].Sent? && log[i].value == value
  }

  /** The last thing that happened is the first hit, with this value. */
  ghost predicate EndsInHit(log: seq<Event>, value: real, target: real, tolerance: real) {
    && log != [] && log[|log| - 1] == Verified(value, target, tolerance) && Hit(log[|log| - 1])
    && NoHits(log[..|log| - 1])
  }

  /** On a track of at least seventeen pixels an action stays eight pixels inside both ends. */
  predicate Careful(e: Event) {
    match e
    case Sent(Tap(at, track, axis)) => End(track, axis) - Start(track, axis) >= 17 ==> Inside(at, track, axis)
    case Sent(Swipe(from, to, track, axis)) =>
      End(track, axis) - Start(track, axis) >= 17 ==> Inside(from, track, axis) && Inside(to, track, axis)
    case _ => true
  }

  ghost predicate AllCareful(log: seq<Event>) { forall i :: 0 <= i < |log| ==> Careful(log[i]) }

  /** A device that answers as it likes, and what was done with it. */
  class Device {
    var log: seq<Event>

    constructor ()
      ensures log == []
    {
      log := [];
    }

    method Send(action: Dispatch) returns (ok: bool)
      modifies this
      ensures log == old(log) + [Sent(action)]
    {
      log := log + [Sent(action)];
      ok := *;
    }

    /** The value verification reads, if it finds one. */
    method Verify(target: real, tolerance: real) returns (value: Option<real>)
      modifies this
      ensures value.Some? ==> log == old(log) + [Verified(value.value, target, tolerance)]
      ensures value.None? ==> log == old(log)
    {
      value := *;
      if value.Some? { log := log + [Verified(value.value, target, tolerance)]; }
    }

    /** Captures the tree and finds the control in it. */
    method Resolve() returns (plan: Option<Plan>)
      modifies this
      ensures plan.Some? && plan.value.current.Some? ==> log == old(log) + [Read(plan.value.current.value)]
      ensures plan.None? || plan.value.current.None? ==> log == old(log)
    {
      plan := *;
      if plan.Some? && plan.value.current.Some? { log := log + [Read(plan.value.current.value)]; }
    }

    /** Plans again for the control remembered from the last attempt, with its value. */
    method Replan(value: real) returns (plan: Plan)
      ensures plan.current == Some(value)
    {
      plan := *;
      plan := plan.(current := Some(value));
    }
  }

  class Adjusting {
    const device: Device
    const limit: nat
    const targetValue: real
    const tolerance: Option<real>  // as requested
    const supported: bool          // a numeric property
    var attempts: nat
    var cached: Option<real>
    var coordinatePending: bool

    /** Every attempt is one action sent, there are at most `limit`, all are careful, and a
        remembered value was read from the device. */
    ghost predicate Counted() reads this, device {
      && attempts == Dispatched(device.log) <= limit && AllCareful(device.log)
      && (cached.Some? ==> Seen(device.log, cached.value))
    }

    ghost predicate Valid() reads this, device { Counted() && NoHits(device.log) }

    /** The plan aims at the requested value, moved to the control's grid. */
    predicate Aimed(plan: Plan) {
      && plan.target == NormalisedTarget(targetValue, plan.range, plan.step)
      && plan.tolerance == EffectiveTolerance(tolerance, plan.range, plan.step)
      && (plan.range.Some? ==> plan.range.value.min <= targetValue <= plan.range.value.max)
    }

    /** Not reached yet, as far as is known. */
    ghost predicate Prepared(p: Iteration) reads this, device {
      && Aimed(p.plan)
      && !p.within
      && Seen(device.log, p.observed)
      && p.plan.current.Some?
      && Seen(device.log, p.plan.current.value)
    }

    /** A success carries a value read from the device within tolerance of the target: the first
        verified hit, after which nothing was sent, or the value found on preparing.  A failure
        means that no verification hit. */
    ghost predicate Converged(r: Result) reads this, device {
      match r
      case Failure(_) => NoHits(device.log)
      case Success(observed, plan, _) =>
        && Aimed(plan) && Seen(device.log, observed) && Abs(observed - plan.target) <= plan.tolerance
        && (NoHits(device.log) || EndsInHit(device.log, observed, plan.target, plan.tolerance))
    }

    ghost predicate Sound(o: Outcome) reads this, device {
      if o.Finished? then o.result.attempts == attempts && Converged(o.result) else NoHits(device.log)
    }

    constructor (device: Device, maxAttempts: Option<int>, targetValue: real, tolerance: Option<real>, supported: bool)
      requires device.log == []
      ensures Valid() && this.device == device && this.targetValue == targetValue && this.supported == supported
      ensures this.tolerance == tolerance
      ensures limit == (if maxAttempts.None? then 5 else if maxAttempts.value < 1 then 1 else maxAttempts.value)
      ensures attempts == 0
    {
      this.device := device;
      this.targetValue := targetValue;
      this.tolerance := tolerance;
      this.supported := supported;
      limit := if maxAttempts.None? then 5 else if maxAttempts.value < 1 then 1 else maxAttempts.value;
      attempts := 0;
      cached := None;
      coordinatePending := false;
    }

    function Fail(): Outcome reads this { Finished(Failure(attempts)) }

    function Succeed(p: Iteration): Outcome reads this {
      Finished(Success(p.observed, p.plan, attempts))
    }

    /** Sends one control action and counts it. */
    method Dispatch(action: Dispatch) returns (ok: bool)
      requires Valid() && attempts < limit && Careful(Sent(action))
      modifies this`attempts, device
      ensures Valid() && attempts == old(attempts) + 1
      ensures device.log == old(device.log) + [Sent(action)]
      ensures forall v :: Seen(old(device.log), v) ==> Seen(device.log, v)
    {
      DispatchedGrows(device.log, Sent(action));
      ok := device.Send(action);
      attempts := attempts + 1;
    }

    method VerifyControl(p: Iteration) returns (q: Iteration)
      requires Valid() && Prepared(p)
      modifies device
      ensures Counted() && q.plan == p.plan && Seen(device.log, q.observed)
      ensures if q.within then EndsInHit(device.log, q.observed, q.plan.target, q.plan.tolerance)
              else NoHits(device.log) && Prepared(q)
    {
      ghost var before := device.log;
      var value := device.Verify(p.plan.target, p.plan.tolerance);
      var observed := if value.Some? then value.value else p.plan.current.value;
      q := Iteration(p.plan, observed, value.Some? && Abs(value.value - p.plan.target) <= p.plan.tolerance);
      if value.Some? {
        var e := Verified(value.value, p.plan.target, p.plan.tolerance);
        DispatchedGrows(before, e);
        assert device.log[|before|] == e && device.log[..|before|] == before;
      }
    }

    /** The plan for the remembered control, or for one found in a new tree. */
    method ResolveControl() returns (plan: Option<Plan>)
      requires Valid()
      modifies device
      ensures Valid() && (plan.Some? && plan.value.current.Some? ==> Seen(device.log, plan.value.current.value))
    {
      ghost var before := device.log;
      if cached.Some? {
        var again := device.Replan(cached.value);
        return Some(again);
      }
      plan := device.Resolve();
      if plan.Some? && plan.value.current.Some? {
        DispatchedGrows(before, Read(plan.value.current.value));
      }
    }

    /** Resolves and plans; a control already within tolerance ends the adjustment. */
    method PrepareIteration() returns (o: Outcome, p: Iteration)
      requires Valid()
      modifies this`cached, device
      ensures Valid() && Sound(o) && o != Retry && (o == Next ==> Prepared(p)) && attempts == old(attempts)
    {
      p := *;
      var found := ResolveControl();
      if found.None? { return Fail(), p; }
      var plan := found.value.(target := NormalisedTarget(targetValue, found.value.range, found.value.step),
                               tolerance := EffectiveTolerance(tolerance, found.value.range, found.value.step));
      if !plan.actionable || !supported || !(plan.adjustable || plan.labelled) || plan.current.None? {
        return Fail(), p;
      }
      if plan.range.Some? && (targetValue < plan.range.value.min || targetValue > plan.range.value.max) {
        return Fail(), p;
      }
      cached := plan.current;
      p := Iteration(plan, plan.current.value, false);
      if Abs(plan.current.value - plan.target) <= plan.tolerance { return Succeed(p), p; }
      if plan.bounds.None? { return Fail(), p; }
      o := Next;
    }

    method DirectAdjustment(p: Iteration) returns (o: Outcome, q: Iteration)
      requires Valid() && Prepared(p)
      modifies this, device
      ensures Counted() && Sound(o) && (o == Next ==> Prepared(q) && q.plan == p.plan)
    {
      if !p.plan.direct || attempts >= limit || !p.plan.setter { return Next, p; }
      var ok := Dispatch(SetValue(p.plan.target));
      if !ok { return Next, p; }
      q := VerifyControl(p);
      if q.within { return Succeed(q), q; }
      cached := None;
      o := if attempts < limit then Retry else Next;
    }

    method IncrementalAdjustment(p: Iteration) returns (o: Outcome, q: Iteration)
      requires Valid() && Prepared(p)
      modifies this, device
      ensures Counted() && Sound(o) && (o == Next ==> Prepared(q) && q.plan == p.plan)
    {
      q := p;
      if (!p.plan.up && !p.plan.down) || attempts >= limit { return Next, q; }
      while p.plan.adjuster && attempts < limit
        invariant Valid() && Prepared(q) && q.plan == p.plan
        decreases limit - attempts
      {
        var increment := q.plan.target > q.observed;
        if (increment && !p.plan.up) || (!increment && !p.plan.down) { break; }
        var ok := Dispatch(Nudge(increment));
        if !ok { break; }
        q := VerifyControl(q);
        if q.within { return Succeed(q), q; }
        cached := None;
        if attempts < limit { return Retry, q; }
      }
      o := Next;
    }

    method CoordinateAdjustment(p: Iteration) returns (o: Outcome, q: Iteration)
      requires Valid() && Prepared(p) && p.plan.bounds.Some? && p.plan.range.Some?
      modifies this, device
      ensures Counted() && Sound(o) && (o == Next ==> Prepared(q) && q.plan == p.plan)
    {
      q := p;
      if coordinatePending { return Next, q; }
      var b, r, axis := p.plan.bounds.value, p.plan.range.value, p.plan.axis;
      var probes := Probes(p.plan);
      var i := 0;
      while i < |probes| && attempts < limit
        invariant 0 <= i <= |probes|
        invariant Valid() && Prepared(q) && q.plan == p.plan
      {
        var ok := Dispatch(Tap(probes[i], b, axis));
        i := i + 1;
        if !ok { continue; }
        q := VerifyControl(q);
        if q.within { return Succeed(q), q; }
        coordinatePending := true;
        cached := None;
        if attempts < limit { return Retry, q; }
      }
      o := Next;
    }

    /** An inferred control is tried at its target only. */
    method Probes(plan: Plan) returns (probes: seq<Point>)
      requires plan.bounds.Some? && plan.range.Some?
      ensures forall i :: 0 <= i < |probes| ==> Careful(Sent(Tap(probes[i], plan.bounds.value, plan.axis)))
      ensures probes != []
    {
      var b, r, axis := plan.bounds.value, plan.range.value, plan.axis;
      if plan.labelled {
        probes := [TargetPoint(b, plan.target, plan.current, r, axis)];
        if End(b, axis) - Start(b, axis) >= 17 {
          LongTrackInside(b, SafeRatio(b, plan.target, plan.current, r, axis), axis);
        }
      } else {
        probes := ProbePoints(b, plan.target, plan.current, r, axis);
      }
    }

    method GestureAdjustment(p: Iteration) returns (o: Outcome, q: Iteration)
      requires Valid() && Prepared(p) && p.plan.bounds.Some? && p.plan.range.Some?
      modifies this, device
      ensures Counted() && Sound(o) && (o == Next ==> Prepared(q) && q.plan == p.plan)
    {
      q := p;
      if attempts >= limit { return Next, q; }
      var b, r, axis := p.plan.bounds.value, p.plan.range.value, p.plan.axis;
      coordinatePending := false;
      var from, to := CurrentPoint(b, p.plan.current, r, axis), TargetPoint(b, p.plan.target, p.plan.current, r, axis);
      if End(b, axis) - Start(b, axis) >= 17 {
        LongTrackInside(b, (p.plan.current.value - r.min) / (r.max - r.min), axis);
        LongTrackInside(b, SafeRatio(b, p.plan.target, p.plan.current, r, axis), axis);
      }
      var ok := Dispatch(Swipe(from, to, b, axis));
      if !ok { return Fail(), q; }
      q := VerifyControl(q);
      if q.within { return Succeed(q), q; }
      o := Next;
    }

    /** One attempt: the strategies in turn, until one retries or finishes. */
    method Attempt(p: Iteration) returns (o: Outcome)
      requires Valid() && Prepared(p)
      modifies this, device
      ensures Counted() && Sound(o)
    {
      var q: Iteration;
      o, q := DirectAdjustment(p);
      if o != Next { return; }
      o, q := IncrementalAdjustment(q);
      if o != Next { return; }
      if q.plan.bounds.None? || q.plan.range.None? { return Fail(); }
      o, q := CoordinateAdjustment(q);
      if o != Next { return; }
      o, q := GestureAdjustment(q);
      if o != Next { return; }
      // No strategy hands on a control found within tolerance: the check that follows in the
      // source never succeeds.
      assert !q.within;
      cached := if q.plan.labelled then None else Some(q.observed);
    }

    lemma NearRequested(result: Result)
      requires Converged(result)
      ensures result.Success? ==>
                Abs(result.observed - targetValue) <= result.plan.tolerance + Slack(result.plan.range, result.plan.step)
    {
      if result.Success? {
        var plan := result.plan;
        QuantisedNear(targetValue, plan.range, plan.step);
        Triangle(result.observed, plan.target, targetValue, plan.tolerance, Slack(plan.range, plan.step));
      }
    }

    /** Every run ends with at most `limit` control actions sent, each counted as one attempt;
        all stay inside a long enough track; a success carries a value that was read and is
        within tolerance, and nothing is sent after the first verified hit; and whenever a
        verification hits, the run succeeds.  The value reached is within tolerance of the
        requested one itself, but for half a step of the control and half its last decimal place. */
    method AdjustControl() returns (result: Result)
      requires Valid() && attempts == 0
      modifies this, device
      ensures result.attempts == Dispatched(device.log) <= limit && AllCareful(device.log)
      ensures Converged(result)
      ensures result.Success? ==>
                Abs(result.observed - targetValue) <= result.plan.tolerance + Slack(result.plan.range, result.plan.step)
    {
      var index := 0;
      while index < limit && attempts < limit
        invariant Valid()
      {
        var o, p := PrepareIteration();
        if o.Finished? { NearRequested(o.result); return o.result; }
        o := Attempt(p);
        if o.Finished? { NearRequested(o.result); return o.result; }
        index := index + 1;
      }
      result := Failure(attempts);
    }
  }
}
