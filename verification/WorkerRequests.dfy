/** The breakpoints and event requests of the JDI bridge. */
module WorkerRequests {
  import opened Collections
  import opened Wrappers
  import J = JdiWorker

  // The other half of the worker's state: what it lists as breakpoints, and the event requests
  // that exist for them, and for a step, in the VM.  Every native call may throw.

  const LIMIT: nat := 100

  datatype Status = Pending | Verified | Rejected | Removed

  /** A breakpoint in the class `name`, and the locations the worker lists for it.  It is known
      by its place among all breakpoints that were ever set. */
  datatype Break = Break(name: nat, status: Status, locations: seq<nat>)

  /** A breakpoint request in the VM. */
  datatype Point = Point(id: nat, location: nat)

  /** `points`, `prepares` and `steps` exist in the VM: breakpoint requests, class-prepare requests
      by breakpoint, step requests by number.  `step` is the one the worker remembers. */
  datatype Requests = Requests(
    breaks: seq<Break>, points: seq<Point>, prepares: set<nat>, step: Option<nat>, steps: set<nat>, made: nat)

  const NONE := Requests([], [], {}, None, {}, 0)

  /** Making a request throws, or enabling it does. */
  datatype Making = NotMade | NotEnabled | Enabled

  /** Making the request for location `at`, if there is one to make, does not work. */
  datatype Trouble = Trouble(at: nat, making: Making)

  /** What the search for a line in a class comes to. */
  datatype Lookup = Throws | Absent | Found(locations: seq<nat>, trouble: Option<Trouble>)

  datatype Outcome = Done | Busy | NotFound | Failed

  // ---------- installing ----------

  datatype Bound = Bound(b: Break, points: seq<Point>, done: bool)

  predicate Fails(trouble: Option<Trouble>, i: nat) {
    trouble.Some? && trouble.value.at == i && !trouble.value.making.Enabled?
  }

  function BindFrom(b: Break, id: nat, points: seq<Point>, found: seq<nat>, i: nat, trouble: Option<Trouble>): Bound
    decreases |found| - i
  {
    if i >= |found| then Bound(b.(status := Verified), points, true)
    else if found[i] in b.locations then BindFrom(b, id, points, found, i + 1, trouble)
    else
      var more := points + [Point(id, found[i])];
      if Fails(trouble, i) then Bound(b, if trouble.value.making.NotMade? then points else more, false)
      else BindFrom(b.(locations := b.locations + [found[i]]), id, more, found, i + 1, trouble)
  }

  /** The new state, and whether nothing was thrown. */
  function Bind(q: Requests, id: nat, l: Lookup): (Requests, bool)
    requires id < |q.breaks|
  {
    var b := q.breaks[id];
    if l.Throws? then (q, false)
    else if l.Absent? || l.locations == [] then
      (q.(breaks := q.breaks[id := if b.status.Verified? then b else b.(status := Rejected)]), true)
    else
      var r := BindFrom(b, id, q.points, l.locations, 0, l.trouble);
      (q.(breaks := q.breaks[id := r.b], points := r.points), r.done)
  }

  function BindTypes(q: Requests, id: nat, types: seq<Lookup>): (Requests, bool)
    requires id < |q.breaks|
    decreases |types|
  {
    if types == [] then (q, true)
    else
      var (q1, done) := Bind(q, id, types[0]);
      if done then BindTypes(q1, id, types[1..]) else (q1, false)
  }

  /** What the calls for a new breakpoint do; `types`: the loaded classes, unless listing throws. */
  datatype Setting = Setting(prepare: Making, types: Option<seq<Lookup>>)

  function Listed(q: Requests, name: nat, prepare: Making): Requests {
    q.(breaks := q.breaks + [Break(name, Pending, [])],
       prepares := if prepare.NotMade? then q.prepares else q.prepares + {|q.breaks|})
  }

  function Set(q: Requests, name: nat, s: Setting): (Requests, Outcome) {
    if |q.breaks| >= LIMIT then (q, Busy)
    else
      var q1 := Listed(q, name, s.prepare);
      if !s.prepare.Enabled? || s.types.None? then (q1, Failed)
      else
        var (q2, done) := BindTypes(q1, |q.breaks|, s.types.value);
        (q2, if done then Done else Failed)
  }

  /** A class with this name is prepared: every breakpoint in it that is not removed is bound,
      `found[i]` being the search for breakpoint `i`. */
  function Prepare(q: Requests, name: nat, found: seq<Lookup>, i: nat): (Requests, bool)
    requires |found| == |q.breaks|
    decreases |q.breaks| - i
  {
    if i >= |q.breaks| then (q, true)
    else if q.breaks[i].status.Removed? || q.breaks[i].name != name then Prepare(q, name, found, i + 1)
    else
      var (q1, done) := Bind(q, i, found[i]);
      if done then Prepare(q1, name, found, i + 1) else (q1, false)
  }

  // ---------- removing ----------

  /** Without the first `n` requests of a breakpoint. */
  function Without(points: seq<Point>, id: nat, n: nat): seq<Point> {
    if points == [] then []
    else if points[0].id == id && n > 0 then Without(points[1..], id, n - 1)
    else [points[0]] + Without(points[1..], id, n)
  }

  /** The locations of a breakpoint's requests, in order. */
  function At(points: seq<Point>, id: nat): seq<nat> {
    if points == [] then []
    else if points[0].id == id then [points[0].location] + At(points[1..], id)
    else At(points[1..], id)
  }

  /** Deleting throws after some breakpoint requests, or at the class-prepare request. */
  datatype Removal = Works | PointThrows(after: nat) | PrepareThrows

  function Remove(q: Requests, id: nat, r: Removal): (Requests, Outcome) {
    if id >= |q.breaks| then (q, NotFound)
    else
      var count := |At(q.points, id)|;
      if r.PointThrows? && r.after < count then (q.(points := Without(q.points, id, r.after)), Failed)
      else
        var q1 := q.(points := Without(q.points, id, count));
        if r.PrepareThrows? && id in q.prepares then (q1, Failed)
        else
          (q1.(prepares := q.prepares - {id}, breaks := q.breaks[id := q.breaks[id].(status := Removed)]), Done)
  }

  // ---------- steps ----------

  /** The worker forgets its step request; `deletes`: deleting it in the VM works. */
  function CancelStep(q: Requests, deletes: bool): Requests {
    if q.step.None? then q else q.(step := None, steps := if deletes then q.steps - {q.step.value} else q.steps)
  }

  function MakeStep(q: Requests, making: Making): Requests {
    if making.NotMade? then q else q.(step := Some(q.made), steps := q.steps + {q.made}, made := q.made + 1)
  }

  /** With the VM let go of. */
  function Disposed(q: Requests): Requests { q.(points := [], prepares := {}, step := None, steps := {}) }

  // ---------- together with stop epochs ----------

  datatype Bridge = Bridge(worker: J.Worker, requests: Requests)

  const START := Bridge(J.START, NONE)

  /** `prepared`: the classes an event set reports as prepared. */
  datatype Class = Class(name: nat, found: seq<Lookup>)

  datatype Action =
    | SetBreak(name: nat, setting: Setting)
    | RemoveBreak(id: nat, removal: Removal)
    | Move(command: J.Command, deletes: bool, making: Making, native: J.Native)
    | Other(command: J.Command, native: J.Native)
    | Deliver(prepared: seq<Class>, events: J.EventSet, deletes: bool)
    | Close(reason: J.Reason)

  predicate Active(b: Bridge) { b.worker.attached && !b.worker.closed }

  function PrepareAll(q: Requests, prepared: seq<Class>): (Requests, bool)
    requires forall c :: c in prepared ==> |c.found| == |q.breaks|
    decreases |prepared|
  {
    if prepared == [] then (q, true)
    else
      var (q1, done) := Prepare(q, prepared[0].name, prepared[0].found, 0);
      PrepareKeepsLength(q, prepared[0].name, prepared[0].found, 0);
      if done then PrepareAll(q1, prepared[1..]) else (q1, false)
  }

  lemma {:induction false} PrepareKeepsLength(q: Requests, name: nat, found: seq<Lookup>, i: nat)
    requires |found| == |q.breaks|
    ensures var q' := Prepare(q, name, found, i).0;
      |q'.breaks| == |q.breaks| && q' == q.(breaks := q'.breaks, points := q'.points)
    decreases |q.breaks| - i
  {
    if i < |q.breaks| {
      if q.breaks[i].status.Removed? || q.breaks[i].name != name {
        PrepareKeepsLength(q, name, found, i + 1);
      } else if Bind(q, i, found[i]).1 {
        PrepareKeepsLength(Bind(q, i, found[i]).0, name, found, i + 1);
      }
    }
  }

  /** The calls of a step command work exactly if its request is made and enabled. */
  predicate Possible(b: Bridge, a: Action) {
    match a
    case Move(c, _, making, native) =>
      (c.Resume? || c.Step?) && (c.Step? ==> (native.Throws? <==> !making.Enabled?)) && (c.Resume? ==> !native.Throws?)
    case Other(c, _) => !c.Resume? && !c.Step?
    case Deliver(prepared, _, _) =>
      Active(b) && forall c :: c in prepared ==> |c.found| == |b.requests.breaks|
    case _ => true
  }

  /** What the action is for the stop epochs.  A search that throws ends the event loop. */
  function OfWorker(b: Bridge, a: Action): J.Action
    requires Possible(b, a)
  {
    match a
    case SetBreak(_, _) => J.Execute(J.Plain, J.Works(0))
    case RemoveBreak(_, _) => J.Execute(J.Plain, J.Works(0))
    case Move(c, _, _, native) => J.Execute(c, native)
    case Other(c, native) => J.Execute(c, native)
    case Deliver(prepared, events, _) =>
      J.Deliver(if PrepareAll(b.requests, prepared).1 then events else J.Unreadable)
    case Close(reason) => J.Close(reason)
  }

  /** A step or resume passes the checks that come before it cancels the last step. */
  predicate Moves(w: J.Worker, c: J.Command) {
    && w.attached && !w.closed && w.stopId.Some? && (c.Resume? || c.Step?) && c.stop == w.stopId
    && (c.Step? ==> c.thread in w.threads)
  }

  function OfRequests(b: Bridge, a: Action): Requests
    requires Possible(b, a)
  {
    var q := b.requests;
    match a
    case SetBreak(name, setting) => if Active(b) then Set(q, name, setting).0 else q
    case RemoveBreak(id, removal) => if Active(b) then Remove(q, id, removal).0 else q
    case Move(c, deletes, making, _) =>
      if !Moves(b.worker, c) then q
      else if c.Step? && c.knownKind then MakeStep(CancelStep(q, deletes), making)
      else CancelStep(q, deletes)
    case Deliver(prepared, events, deletes) =>
      var (q1, done) := PrepareAll(q, prepared);
      if done && events.Stops? then CancelStep(q1, deletes) else q1
    case _ => q
  }

  function Apply(b: Bridge, a: Action): Bridge
    requires Possible(b, a)
  {
    var w := J.Apply(b.worker, OfWorker(b, a));
    var q := OfRequests(b, a);
    Bridge(w, if w.closed && !b.worker.closed then Disposed(q) else q)
  }

  ghost predicate Legal(b: Bridge, run: seq<Action>)
    decreases |run|
  {
    run == [] || (Possible(b, run[0]) && Legal(Apply(b, run[0]), run[1..]))
  }

  function Final(b: Bridge, run: seq<Action>): Bridge
    requires Legal(b, run)
    decreases |run|
  {
    if run == [] then b else Final(Apply(b, run[0]), run[1..])
  }

  // ---------- requests match the list ----------

  function Installed(b: Break): seq<nat> { if b.status.Removed? then [] else b.locations }

  /** The requests of each breakpoint are for exactly its listed locations, one each; a removed
      one has none. */
  ghost predicate Matched(q: Requests) {
    && (forall p :: p in q.points ==> p.id < |q.breaks|)
    && (forall i :: 0 <= i < |q.breaks| ==> At(q.points, i) == Installed(q.breaks[i]))
  }

  /** No location is listed twice, a verified breakpoint lists some, and nothing is requested for a
      removed one. */
  ghost predicate Sound(q: Requests) {
    && (forall i :: 0 <= i < |q.breaks| ==>
          Unique(q.breaks[i].locations) && (q.breaks[i].status.Verified? ==> q.breaks[i].locations != []))
    && (forall p :: p in q.points ==> p.id < |q.breaks| && !q.breaks[p.id].status.Removed?)
    && (forall id :: id in q.prepares ==> id < |q.breaks| && !q.breaks[id].status.Removed?)
  }

  ghost predicate Inv(b: Bridge) {
    |b.requests.breaks| <= LIMIT && (!b.worker.closed ==> Sound(b.requests))
  }

  lemma {:induction false} AtConcat(a: seq<Point>, b: seq<Point>, id: nat)
    ensures At(a + b, id) == At(a, id) + At(b, id)
  {
    if a == [] {
      assert a + b == b;
    } else {
      assert (a + b)[0] == a[0] && (a + b)[1..] == a[1..] + b;
      AtConcat(a[1..], b, id);
    }
  }

  lemma AtMore(points: seq<Point>, p: Point, id: nat)
    ensures At(points + [p], id) == if p.id == id then At(points, id) + [p.location] else At(points, id)
  {
    AtConcat(points, [p], id);
    assert At([p][1..], id) == [];
  }

  /** The first location at which binding fails is one of the found ones that is not listed. */
  predicate StopsFrom(have: set<nat>, found: seq<nat>, i: nat, trouble: Option<Trouble>) {
    && trouble.Some? && i <= trouble.value.at < |found| && !trouble.value.making.Enabled?
    && found[trouble.value.at] !in have && found[trouble.value.at] !in found[i..trouble.value.at]
  }

  /** What `r` made of a breakpoint that was bound: more locations are listed, each with a request;
      a request that was not enabled is one more. */
  ghost predicate BoundWell(b: Break, id: nat, points: seq<Point>, found: seq<nat>, i: nat, trouble: Option<Trouble>,
                            r: Bound)
    requires i <= |found|
  {
    && r.b == b.(status := r.b.status, locations := r.b.locations) && Unique(r.b.locations)
    && b.locations <= r.b.locations
    && (r.done <==> !StopsFrom(Elements(b.locations), found, i, trouble))
    && (r.done ==> r.b.status == Verified && Elements(r.b.locations) == Elements(b.locations) + Elements(found[i..]))
    && (!r.done ==> r.b.status == b.status)
    && (forall p :: p in r.points ==> p in points || p.id == id)
    && (forall j: nat :: j != id ==> At(r.points, j) == At(points, j))
    && (At(points, id) == b.locations ==>
          At(r.points, id) == r.b.locations
            + if r.done || trouble.value.making.NotMade? then [] else [found[trouble.value.at]])
  }

  lemma {:induction false} BindsFrom(b: Break, id: nat, points: seq<Point>, found: seq<nat>, i: nat,
                                     trouble: Option<Trouble>)
    requires Unique(b.locations) && i <= |found|
    ensures BoundWell(b, id, points, found, i, trouble, BindFrom(b, id, points, found, i, trouble))
    decreases |found| - i
  {
    if i < |found| {
      assert found[i..] == [found[i]] + found[i + 1..];
      if found[i] in b.locations {
        BindsFrom(b, id, points, found, i + 1, trouble);
      } else {
        var b1, more := b.(locations := b.locations + [found[i]]), points + [Point(id, found[i])];
        forall j: nat { AtMore(points, Point(id, found[i]), j); }
        if !Fails(trouble, i) { BindsFrom(b1, id, more, found, i + 1, trouble); }
      }
    }
  }

  // ---------- setting ----------

  /** Whether binding throws, and whether it leaves a request that is not enabled. */
  predicate Stops(have: set<nat>, l: Lookup) {
    l.Throws? || (l.Found? && StopsFrom(have, l.locations, 0, l.trouble))
  }

  predicate HalfMade(have: set<nat>, l: Lookup) { Stops(have, l) && l.Found? && l.trouble.value.making.NotEnabled? }

  function Locations(l: Lookup): set<nat> { if l.Found? then Elements(l.locations) else {} }

  /** Binding changes breakpoint `id` and its requests only.  Unless it throws, the locations found
      are now listed; unless it leaves a half-made request, the requests still match. */
  ghost predicate Binds(q: Requests, id: nat, l: Lookup)
    requires id < |q.breaks|
  {
    var (q1, done) := Bind(q, id, l);
    var have := Elements(q.breaks[id].locations);
    && q1 == q.(breaks := q.breaks[id := q1.breaks[id]], points := q1.points)
    && |q1.breaks| == |q.breaks| && !q1.breaks[id].status.Removed?
    && (done <==> !Stops(have, l))
    && (done ==> Elements(q1.breaks[id].locations) == have + Locations(l))
    && (Sound(q) ==> Sound(q1))
    && (Matched(q) ==> (Matched(q1) <==> !HalfMade(have, l)))
  }

  lemma BindKeeps(q: Requests, id: nat, l: Lookup)
    requires id < |q.breaks| && !q.breaks[id].status.Removed? && Unique(q.breaks[id].locations)
    ensures Binds(q, id, l)
  {
    var b, q1 := q.breaks[id], Bind(q, id, l).0;
    if l.Found? && l.locations != [] {
      var r := BindFrom(b, id, q.points, l.locations, 0, l.trouble);
      BindsFrom(b, id, q.points, l.locations, 0, l.trouble);
      assert l.locations[0..] == l.locations && l.locations[0] in Elements(l.locations);
      assert r.done ==> l.locations[0] in Elements(r.b.locations);
    }
  }

  lemma {:induction false} BoundAlready(b: Break, id: nat, points: seq<Point>, found: seq<nat>, i: nat,
                                        trouble: Option<Trouble>)
    requires i <= |found| && Elements(found[i..]) <= Elements(b.locations)
    ensures BindFrom(b, id, points, found, i, trouble) == Bound(b.(status := Verified), points, true)
    decreases |found| - i
  {
    if i < |found| {
      assert found[i] in Elements(found[i..]);
      assert forall x :: x in found[i + 1..] ==> x in found[i..];
      BoundAlready(b, id, points, found, i + 1, trouble);
    }
  }

  /** Setting a breakpoint and the preparation of its class may both find a location: binding
      again what has been found changes nothing, and no call is made that could throw. */
  lemma BindTwice(q: Requests, id: nat, l: Lookup)
    requires id < |q.breaks| && !q.breaks[id].status.Removed? && Unique(q.breaks[id].locations) && Bind(q, id, l).1
    ensures Bind(Bind(q, id, l).0, id, l) == Bind(q, id, l)
  {
    BindKeeps(q, id, l);
    var q1 := Bind(q, id, l).0;
    if l.Found? && l.locations != [] {
      var have := Elements(q.breaks[id].locations);
      assert l.locations[0..] == l.locations;
      BindsFrom(q.breaks[id], id, q.points, l.locations, 0, l.trouble);
      assert Elements(l.locations) <= Elements(q1.breaks[id].locations);
      BoundAlready(q1.breaks[id], id, q1.points, l.locations, 0, l.trouble);
    }
    assert q1.breaks[id := q1.breaks[id]] == q1.breaks;
  }

  /** Of the classes bound in order, one leaves a half-made request. */
  predicate HalfBound(have: set<nat>, types: seq<Lookup>)
    decreases |types|
  {
    types != []
    && (HalfMade(have, types[0]) || (!Stops(have, types[0]) && HalfBound(have + Locations(types[0]), types[1..])))
  }

  lemma {:induction false} TypesKeep(q: Requests, id: nat, types: seq<Lookup>)
    requires Sound(q) && id < |q.breaks| && !q.breaks[id].status.Removed?
    ensures var q1 := BindTypes(q, id, types).0;
      && q1 == q.(breaks := q1.breaks, points := q1.points) && |q1.breaks| == |q.breaks| && Sound(q1)
      && (Matched(q) ==> (Matched(q1) <==> !HalfBound(Elements(q.breaks[id].locations), types)))
    decreases |types|
  {
    if types != [] {
      BindKeeps(q, id, types[0]);
      if Bind(q, id, types[0]).1 { TypesKeep(Bind(q, id, types[0]).0, id, types[1..]); }
    }
  }

  lemma {:induction false} AtNone(points: seq<Point>, id: nat)
    requires forall p :: p in points ==> p.id != id
    ensures At(points, id) == []
  {
    if points != [] {
      assert points[0] in points;
      AtNone(points[1..], id);
    }
  }

  lemma ListedKeeps(q: Requests, name: nat, prepare: Making)
    requires Sound(q)
    ensures Sound(Listed(q, name, prepare)) && (Matched(q) ==> Matched(Listed(q, name, prepare)))
  {
    var q1 := Listed(q, name, prepare);
    AtNone(q.points, |q.breaks|);
  }

  /** Setting gets as far as binding, and leaves a half-made request. */
  predicate HalfSet(q: Requests, s: Setting) {
    |q.breaks| < LIMIT && s.prepare.Enabled? && s.types.Some? && HalfBound({}, s.types.value)
  }

  lemma SetKeeps(q: Requests, name: nat, s: Setting)
    requires Sound(q)
    ensures var (q1, outcome) := Set(q, name, s);
      && Sound(q1) && q1 == q.(breaks := q1.breaks, points := q1.points, prepares := q1.prepares)
      && (outcome == Busy <==> |q.breaks| >= LIMIT)
      && |q1.breaks| == |q.breaks| + (if outcome == Busy then 0 else 1)
      && (Matched(q) ==> (Matched(q1) <==> !HalfSet(q, s)))
  {
    if |q.breaks| < LIMIT {
      ListedKeeps(q, name, s.prepare);
      if s.prepare.Enabled? && s.types.Some? {
        TypesKeep(Listed(q, name, s.prepare), |q.breaks|, s.types.value);
        assert Elements(Listed(q, name, s.prepare).breaks[|q.breaks|].locations) == {};
      }
    }
  }

  lemma {:induction false} PrepareKeeps(q: Requests, name: nat, found: seq<Lookup>, i: nat)
    requires |found| == |q.breaks| && Sound(q)
    ensures var (q1, done) := Prepare(q, name, found, i);
      |q1.breaks| == |q.breaks| && Sound(q1) && (done && Matched(q) ==> Matched(q1))
    decreases |q.breaks| - i
  {
    if i < |q.breaks| {
      if q.breaks[i].status.Removed? || q.breaks[i].name != name {
        PrepareKeeps(q, name, found, i + 1);
      } else {
        BindKeeps(q, i, found[i]);
        if Bind(q, i, found[i]).1 { PrepareKeeps(Bind(q, i, found[i]).0, name, found, i + 1); }
      }
    }
  }

  lemma {:induction false} PrepareAllKeeps(q: Requests, prepared: seq<Class>)
    requires Sound(q) && forall c :: c in prepared ==> |c.found| == |q.breaks|
    ensures var (q1, done) := PrepareAll(q, prepared);
      && q1 == q.(breaks := q1.breaks, points := q1.points) && |q1.breaks| == |q.breaks| && Sound(q1)
      && (done && Matched(q) ==> Matched(q1))
    decreases |prepared|
  {
    if prepared != [] {
      PrepareKeepsLength(q, prepared[0].name, prepared[0].found, 0);
      PrepareKeeps(q, prepared[0].name, prepared[0].found, 0);
      var (q1, done) := Prepare(q, prepared[0].name, prepared[0].found, 0);
      if done { PrepareAllKeeps(q1, prepared[1..]); }
    }
  }

  lemma {:induction false} WithoutKeeps(points: seq<Point>, id: nat, n: nat)
    requires n <= |At(points, id)|
    ensures At(Without(points, id, n), id) == At(points, id)[n..]
    ensures forall j: nat :: j != id ==> At(Without(points, id, n), j) == At(points, j)
    ensures forall p :: p in Without(points, id, n) ==> p in points
  {
    if points != [] {
      WithoutKeeps(points[1..], id, if points[0].id == id && n > 0 then n - 1 else n);
    }
  }

  lemma {:induction false} Located(points: seq<Point>, p: Point)
    requires p in points
    ensures p.location in At(points, p.id)
  {
    if points[0] != p { Located(points[1..], p); }
  }

  /** Removing a listed breakpoint stops before its end with some of its requests deleted. */
  predicate HalfRemoved(q: Requests, id: nat, r: Removal) {
    id < |q.breaks| && Installed(q.breaks[id]) != []
    && (if r.PointThrows? && r.after < |q.breaks[id].locations| then r.after > 0
        else r.PrepareThrows? && id in q.prepares)
  }

  lemma AllRemoved(points: seq<Point>, id: nat)
    ensures var rest := Without(points, id, |At(points, id)|);
      && At(rest, id) == [] && (forall p :: p in rest ==> p in points && p.id != id)
      && (forall j: nat :: j != id ==> At(rest, j) == At(points, j))
  {
    var rest := Without(points, id, |At(points, id)|);
    WithoutKeeps(points, id, |At(points, id)|);
    forall p | p in rest ensures p.id != id {
      if p.id == id { Located(rest, p); }
    }
  }

  /** A removal that throws at some breakpoint request. */
  lemma RemovedInPart(q: Requests, id: nat, after: nat)
    requires Sound(q) && id < |q.breaks| && after < |At(q.points, id)|
    ensures var q1 := q.(points := Without(q.points, id, after));
      Sound(q1) && (Matched(q) ==> (Matched(q1) <==> after == 0))
  {
    WithoutKeeps(q.points, id, after);
  }

  /** ... or does not. */
  lemma RemovedWhole(q: Requests, id: nat)
    requires Sound(q) && id < |q.breaks|
    ensures var q1 := q.(points := Without(q.points, id, |At(q.points, id)|));
      && Sound(q1) && (Matched(q) ==> (Matched(q1) <==> Installed(q.breaks[id]) == []))
      && var q2 := q1.(prepares := q.prepares - {id}, breaks := q.breaks[id := q.breaks[id].(status := Removed)]);
      Sound(q2) && At(q2.points, id) == [] && (Matched(q) ==> Matched(q2))
  {
    AllRemoved(q.points, id);
  }

  lemma RemoveKeeps(q: Requests, id: nat, r: Removal)
    requires Sound(q)
    ensures var (q1, outcome) := Remove(q, id, r);
      && Sound(q1) && |q1.breaks| == |q.breaks|
      && q1 == q.(breaks := q1.breaks, points := q1.points, prepares := q1.prepares)
      && (outcome == Done ==> id < |q.breaks| && q1.breaks[id].status.Removed? && At(q1.points, id) == [])
      && (Matched(q) ==> (Matched(q1) <==> !HalfRemoved(q, id, r)))
  {
    if id < |q.breaks| {
      if r.PointThrows? && r.after < |At(q.points, id)| {
        RemovedInPart(q, id, r.after);
      } else {
        RemovedWhole(q, id);
      }
    }
  }

  // ---------- every run ----------

  /** The list and the requests match, as long as the VM is held on to. */
  ghost predicate InStep(b: Bridge) { !b.worker.closed ==> Matched(b.requests) }

  /** An action that leaves a breakpoint with too many requests, or too few. */
  predicate Half(b: Bridge, a: Action) {
    match a
    case SetBreak(_, setting) => Active(b) && HalfSet(b.requests, setting)
    case RemoveBreak(id, removal) => Active(b) && HalfRemoved(b.requests, id, removal)
    case _ => false
  }

  lemma RequestsKeep(b: Bridge, a: Action)
    requires Inv(b) && Sound(b.requests) && Possible(b, a)
    ensures var q := OfRequests(b, a); Sound(q) && |b.requests.breaks| <= |q.breaks| <= LIMIT
    ensures Matched(b.requests) && (a.Deliver? ==> PrepareAll(b.requests, a.prepared).1) ==>
              (Matched(OfRequests(b, a)) <==> !Half(b, a))
  {
    match a
    case SetBreak(name, setting) => SetKeeps(b.requests, name, setting);
    case RemoveBreak(id, removal) => RemoveKeeps(b.requests, id, removal);
    case Deliver(prepared, _, _) => PrepareAllKeeps(b.requests, prepared);
    case _ =>
  }

  /** Every action keeps that nothing is requested for a removed breakpoint; and that the requests
      match the list, exactly unless it half makes or half removes a breakpoint. */
  lemma ActionKeepsMatchedExactly(b: Bridge, a: Action)
    requires Inv(b) && Possible(b, a)
    ensures Inv(Apply(b, a)) && |b.requests.breaks| <= |Apply(b, a).requests.breaks|
    ensures InStep(b) ==> (InStep(Apply(b, a)) <==> !Half(b, a))
  {
    if !b.worker.closed { RequestsKeep(b, a); }
  }

  /** The remembered step request is the only one, and there is none while the VM is paused. */
  predicate StepSound(b: Bridge) {
    !b.worker.closed ==>
      && b.requests.steps == (if b.requests.step.Some? then {b.requests.step.value} else {})
      && (b.worker.stopId.Some? ==> b.requests.step.None?)
  }

  /** A stop whose deletion of the step request throws, or a step that has its request made but
      does not get to the end of its release. */
  predicate Strays(b: Bridge, a: Action)
    requires Possible(b, a)
  {
    match a
    case Deliver(prepared, events, deletes) =>
      PrepareAll(b.requests, prepared).1 && events.Stops? && b.requests.step.Some? && !deletes
    case Move(c, _, making, native) =>
      && Moves(b.worker, c) && c.Step? && c.knownKind && !making.NotMade?
      && (making.NotEnabled? || (native.ReleaseThrows? && native.resumed < |b.worker.held|))
    case _ => false
  }

  lemma ActionKeepsStepExactly(b: Bridge, a: Action)
    requires Inv(b) && StepSound(b) && Possible(b, a)
    ensures StepSound(Apply(b, a)) <==> !Strays(b, a)
  {
    if !b.worker.closed {
      match a
      case SetBreak(name, setting) => SetKeeps(b.requests, name, setting);
      case RemoveBreak(id, removal) => RemoveKeeps(b.requests, id, removal);
      case Deliver(prepared, _, _) => PrepareAllKeeps(b.requests, prepared);
      case _ =>
    }
  }

  ghost predicate FaultFree(b: Bridge, run: seq<Action>)
    requires Legal(b, run)
    decreases |run|
  {
    run == [] || (!Half(b, run[0]) && !Strays(b, run[0]) && FaultFree(Apply(b, run[0]), run[1..]))
  }

  lemma {:induction false} RunKeepsInv(b: Bridge, run: seq<Action>)
    requires Inv(b) && Legal(b, run)
    ensures Inv(Final(b, run)) && |b.requests.breaks| <= |Final(b, run).requests.breaks|
    ensures InStep(b) && StepSound(b) && FaultFree(b, run) ==> InStep(Final(b, run)) && StepSound(Final(b, run))
    decreases |run|
  {
    if run != [] {
      ActionKeepsMatchedExactly(b, run[0]);
      if StepSound(b) { ActionKeepsStepExactly(b, run[0]); }
      RunKeepsInv(Apply(b, run[0]), run[1..]);
    }
  }

  /** In every run, whatever throws: a removed breakpoint has no requests left, ever after; and
      without the faults above each breakpoint is installed at exactly its listed locations, and
      no step request exists while the VM is paused. */
  lemma RequestsMatch(run: seq<Action>)
    requires Legal(START, run) && !Final(START, run).worker.closed
    ensures Sound(Final(START, run).requests)
    ensures FaultFree(START, run) ==>
      var b := Final(START, run);
      Matched(b.requests) && |b.requests.steps| <= 1 && (b.worker.stopId.Some? ==> b.requests.steps == {})
  {
    RunKeepsInv(START, run);
  }

  // ---------- the limit ----------

  /** Once a hundred breakpoints were set, no run, whatever it removes, makes room for another. */
  lemma FullForEver(run: seq<Action>, more: seq<Action>, name: nat, s: Setting)
    requires Legal(START, run) && |Final(START, run).requests.breaks| >= LIMIT && Legal(Final(START, run), more)
    ensures var q := Final(Final(START, run), more).requests; Set(q, name, s) == (q, Busy)
  {
    RunKeepsInv(START, run);
    RunKeepsInv(Final(START, run), more);
  }

  /** Nothing is installed, and every breakpoint that was ever set is removed. */
  ghost predicate Cleared(b: Bridge) {
    && Active(b) && b.requests.points == [] && b.requests.prepares == {}
    && forall i :: 0 <= i < |b.requests.breaks| ==> b.requests.breaks[i].status.Removed?
  }

  /** A run from `b` to where nothing is installed and nothing can be. */
  ghost predicate CanFill(b: Bridge) {
    exists run: seq<Action> ::
      Legal(b, run) && Cleared(Final(b, run)) && |Final(b, run).requests.breaks| >= LIMIT
  }

  lemma FillsAfter(b: Bridge, a: Action)
    requires Possible(b, a) && CanFill(Apply(b, a))
    ensures CanFill(b)
  {
    var rest: seq<Action> :|
      && Legal(Apply(b, a), rest) && Cleared(Final(Apply(b, a), rest))
      && |Final(Apply(b, a), rest).requests.breaks| >= LIMIT;
    var run := [a] + rest;
    assert run[1..] == rest;
    assert Legal(b, run);
  }

  lemma {:induction false} Fills(b: Bridge)
    requires Cleared(b)
    ensures CanFill(b)
    decreases LIMIT - |b.requests.breaks|
  {
    if |b.requests.breaks| >= LIMIT {
      assert Legal(b, []) && Final(b, []) == b;
    } else {
      var id := |b.requests.breaks|;
      var set_, remove := SetBreak(0, Setting(Enabled, Some([]))), RemoveBreak(id, Works);
      var b1 := Apply(b, set_);
      var b2 := Apply(b1, remove);
      assert b1.requests.breaks == b.requests.breaks + [Break(0, Pending, [])] && b1.requests.points == [];
      assert b2.requests.points == [] && b2.requests.prepares == {};
      Fills(b2);
      FillsAfter(b1, remove);
      FillsAfter(b, set_);
    }
  }

  /** Removing does not make room: a session can come to have nothing installed and still refuse
      every breakpoint. */
  lemma RemovedStillCount()
    ensures CanFill(START)
  {
    var attach := Other(J.Attach, J.Works(0));
    Fills(Apply(START, attach));
    FillsAfter(START, attach);
  }

  // ---------- the worker's tables ----------

  lemma {:induction false} WithoutOneMore(points: seq<Point>, id: nat, n: nat)
    ensures Without(Without(points, id, n), id, 1) == Without(points, id, n + 1)
  {
    if points != [] {
      if points[0].id == id && n > 0 {
        WithoutOneMore(points[1..], id, n - 1);
      } else if points[0].id == id {
        WithoutNone(points[1..], id);
        WithoutNone(points, id);
      } else {
        WithoutOneMore(points[1..], id, n);
      }
    }
  }

  lemma {:induction false} WithoutNone(points: seq<Point>, id: nat)
    ensures Without(points, id, 0) == points
  {
    if points != [] { WithoutNone(points[1..], id); }
  }

  class RequestTable {
    var breaks: seq<Break>
    var points: seq<Point>
    var prepares: set<nat>
    var step: Option<nat>
    var steps: set<nat>
    var made: nat

    function View(): Requests reads this { Requests(breaks, points, prepares, step, steps, made) }

    constructor ()
      ensures View() == NONE
    {
      breaks, points, prepares, step, steps, made := [], [], {}, None, {}, 0;
    }

    method BindBreak(id: nat, l: Lookup) returns (done: bool)
      requires id < |breaks|
      modifies this
      ensures (View(), done) == Bind(old(View()), id, l)
    {
      if l.Throws? { return false; }
      if l.Absent? || l.locations == [] {
        if !breaks[id].status.Verified? { breaks := breaks[id := breaks[id].(status := Rejected)]; }
        assert breaks[id := breaks[id]] == breaks;
        return true;
      }
      ghost var goal := Bind(View(), id, l);
      var i := 0;
      while i < |l.locations|
        invariant id < |breaks| && breaks == old(breaks)[id := breaks[id]]
        invariant var r := BindFrom(breaks[id], id, points, l.locations, i, l.trouble);
          (View().(breaks := old(breaks)[id := r.b], points := r.points), r.done) == goal
      {
        if l.locations[i] !in breaks[id].locations {
          if Fails(l.trouble, i) && l.trouble.value.making.NotMade? { return false; }
          points := points + [Point(id, l.locations[i])];
          if Fails(l.trouble, i) { return false; }
          breaks := breaks[id := breaks[id].(locations := breaks[id].locations + [l.locations[i]])];
        }
        i := i + 1;
      }
      breaks := breaks[id := breaks[id].(status := Verified)];
      assert breaks == old(breaks)[id := breaks[id]];
      done := true;
    }

    method SetBreakpoint(name: nat, s: Setting) returns (outcome: Outcome)
      modifies this
      ensures (View(), outcome) == Set(old(View()), name, s)
    {
      if |breaks| >= LIMIT { return Busy; }
      var id := |breaks|;
      breaks := breaks + [Break(name, Pending, [])];
      if s.prepare.NotMade? { return Failed; }
      prepares := prepares + {id};
      if s.prepare.NotEnabled? || s.types.None? { return Failed; }
      ghost var goal := BindTypes(View(), id, s.types.value);
      var types := s.types.value;
      while types != []
        invariant id < |breaks| && BindTypes(View(), id, types) == goal
        decreases |types|
      {
        var done := BindBreak(id, types[0]);
        if !done { return Failed; }
        types := types[1..];
      }
      outcome := Done;
    }

    method OnPrepared(name: nat, found: seq<Lookup>) returns (done: bool)
      requires |found| == |breaks|
      modifies this
      ensures (View(), done) == Prepare(old(View()), name, found, 0)
    {
      var i := 0;
      while i < |breaks|
        invariant |found| == |breaks|
        invariant Prepare(View(), name, found, i) == Prepare(old(View()), name, found, 0)
      {
        if !breaks[i].status.Removed? && breaks[i].name == name {
          done := BindBreak(i, found[i]);
          if !done { return; }
        }
        i := i + 1;
      }
      done := true;
    }

    method RemoveBreakpoint(id: nat, r: Removal) returns (outcome: Outcome)
      modifies this
      ensures (View(), outcome) == Remove(old(View()), id, r)
    {
      if id >= |breaks| { return NotFound; }
      var listed, i, n := points, 0, 0;
      WithoutNone(points, id);
      while i < |listed|
        invariant 0 <= i <= |listed| && n == |At(listed[..i], id)|
        invariant r.PointThrows? ==> n <= r.after
        invariant View() == old(View()).(points := Without(listed, id, n))
      {
        assert listed == listed[..i] + listed[i..] && listed[..i + 1] == listed[..i] + [listed[i]];
        AtConcat(listed[..i], listed[i..], id);
        AtMore(listed[..i], listed[i], id);
        if listed[i].id == id {
          if r.PointThrows? && r.after == n { return Failed; }
          WithoutOneMore(listed, id, n);
          points := Without(points, id, 1);
          n := n + 1;
        }
        i := i + 1;
      }
      assert listed[..i] == listed;
      if r.PrepareThrows? && id in prepares { return Failed; }
      prepares := prepares - {id};
      breaks := breaks[id := breaks[id].(status := Removed)];
      outcome := Done;
    }

    method Cancel(deletes: bool)
      modifies this
      ensures View() == CancelStep(old(View()), deletes)
    {
      if step.Some? {
        if deletes { steps := steps - {step.value}; }
        step := None;
      }
    }

    method RequestStep(making: Making) returns (works: bool)
      modifies this
      ensures View() == MakeStep(old(View()), making) && (works <==> making.Enabled?)
    {
      if making.NotMade? { return false; }
      step, steps, made := Some(made), steps + {made}, made + 1;
      works := making.Enabled?;
    }
  }
}
