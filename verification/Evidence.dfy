/** Freshness of captured evidence. */
module Evidence {
  import opened Collections
  import opened Wrappers

  // Dispatches and captures on many devices interleave; each device has an order object with
  // counters, which may be evicted and created anew.

  const ORDERS: nat := 1000

  datatype Device = Device(platform: string, id: string)

  datatype Kind = Logs | OtherKind

  datatype Stamp = Stamp(wall: int, mono: int)

  /** An order object; it serves one device for as long as it exists. */
  datatype Order = Order(device: Device, sequence: nat, active: nat, lastStarted: Option<int>)

  /** A tracked dispatch: its order object, the number it got there, and when it ran, counted
      in steps.  A device that is not a concrete one has no order. */
  datatype Dispatch = Dispatch(device: Option<Device>, order: Option<nat>, number: nat, began: nat, ended: Option<nat>)

  datatype Status = Failed | Captured

  datatype Acquisition = Acquisition(
    kind: Kind, status: Status, device: Option<Device>, source: Option<int>, start: Stamp, end: Option<Stamp>,
    order: Option<nat>, startSequence: nat, endSequence: nat, overlapping: bool, reused: bool, began: nat)

  /** Order objects by index, the insertion-ordered map to the current ones, and everything
      dispatched and captured so far. */
  datatype State = State(heap: seq<Order>, keys: seq<Device>, current: map<Device, nat>,
                         dispatches: seq<Dispatch>, captures: seq<Acquisition>, step: nat)

  const EMPTY := State([], [], map[], [], [], 0)

  // ---------- order objects ----------

  /** The first `excess` idle devices of `keys` other than `device`. */
  function Victims(keys: seq<Device>, excess: nat, device: Device, current: map<Device, nat>,
      heap: seq<Order>): seq<Device> {
    if keys == [] || excess == 0 then []
    else if keys[0] != device && Idle(keys[0], current, heap) then
      [keys[0]] + Victims(keys[1..], excess - 1, device, current, heap)
    else Victims(keys[1..], excess, device, current, heap)
  }

  predicate Idle(d: Device, current: map<Device, nat>, heap: seq<Order>) {
    d in current && current[d] < |heap| && heap[current[d]].active == 0
  }

  function Survivors(keys: seq<Device>, excess: nat, device: Device, current: map<Device, nat>,
      heap: seq<Order>): seq<Device> {
    if keys == [] || excess == 0 then keys
    else if keys[0] != device && Idle(keys[0], current, heap) then
      Survivors(keys[1..], excess - 1, device, current, heap)
    else [keys[0]] + Survivors(keys[1..], excess, device, current, heap)
  }

  function Gone(victims: seq<Device>): set<Device> { set d | d in victims }

  function AddOrder(s: State, device: Device): State {
    s.(heap := s.heap + [Order(device, 0, 0, None)], keys := s.keys + [device],
      current := s.current[device := |s.heap|])
  }

  function Excess(keys: seq<Device>): nat { if |keys| > ORDERS then |keys| - ORDERS else 0 }

  function Evict(s: State, device: Device): State {
    s.(keys := Survivors(s.keys, Excess(s.keys), device, s.current, s.heap),
       current := s.current - Gone(Victims(s.keys, Excess(s.keys), device, s.current, s.heap)))
  }

  /** The state in which `device` has an order. */
  function WithOrder(s: State, device: Device): State {
    if device in s.current then s else Evict(AddOrder(s, device), device)
  }

  function Prepared(s: State, device: Option<Device>): State {
    if device.Some? then WithOrder(s, device.value) else s
  }

  function OrderIn(s: State, device: Option<Device>): Option<nat> {
    if device.Some? && device.value in s.current then Some(s.current[device.value]) else None
  }

  predicate InHeap(s: State, order: Option<nat>) { order.Some? && order.value < |s.heap| }

  // ---------- steps ----------

  datatype Answer = Threw | Returned(device: Option<Device>, failed: bool, source: Option<int>)

  datatype Event =
    | BeginDispatch(device: Option<Device>, mono: int)
    | EndDispatch(index: nat)
    | BeginCapture(kind: Kind, target: Option<Device>, at: Stamp)
    | EndCapture(capture: nat, answer: Answer, until: Stamp)

  predicate Enabled(s: State, e: Event) {
    match e
    case EndDispatch(i) => i < |s.dispatches| && s.dispatches[i].ended == None
    case EndCapture(i, _, _) => i < |s.captures| && s.captures[i].end == None
    case _ => true
  }

  /** A dispatch begins on the order object `c` of `device`. */
  function Entered(s: State, device: Device, c: nat, mono: int): State
    requires c < |s.heap|
  {
    var o := s.heap[c];
    s.(heap := s.heap[c := o.(sequence := o.sequence + 1, active := o.active + 1, lastStarted := Some(mono))],
       dispatches := s.dispatches + [Dispatch(Some(device), Some(c), o.sequence + 1, s.step, None)],
       step := s.step + 1)
  }

  function Untracked(s: State, device: Option<Device>): State {
    s.(dispatches := s.dispatches + [Dispatch(device, None, 0, s.step, None)], step := s.step + 1)
  }

  function Dispatched(s: State, device: Option<Device>, mono: int): State {
    var s1 := Prepared(s, device);
    var order := OrderIn(s1, device);
    if InHeap(s1, order) then Entered(s1, device.value, order.value, mono) else Untracked(s1, device)
  }

  function Finished(s: State, i: nat): State
    requires i < |s.dispatches|
  {
    var d := s.dispatches[i];
    var heap :=
      if InHeap(s, d.order) && s.heap[d.order.value].active > 0 then
        s.heap[d.order.value := s.heap[d.order.value].(active := s.heap[d.order.value].active - 1)]
      else s.heap;
    s.(heap := heap, dispatches := s.dispatches[i := d.(ended := Some(s.step))], step := s.step + 1)
  }

  function Sequence(s: State, order: Option<nat>): nat { if InHeap(s, order) then s.heap[order.value].sequence else 0 }
  predicate Busy(s: State, order: Option<nat>) { InHeap(s, order) && s.heap[order.value].active > 0 }

  function Started(s: State, kind: Kind, target: Option<Device>, at: Stamp): State {
    var s1 := Prepared(s, target);
    var order := OrderIn(s1, target);
    s1.(captures := s.captures + [Acquisition(kind, Failed, target, None, at, None, order, Sequence(s1, order), 0,
                                              Busy(s1, order), false, s.step)],
        step := s.step + 1)
  }

  function Answered(a: Acquisition, answer: Answer, until: Stamp): Acquisition {
    match answer
    case Threw => a
    case Returned(device, failed, source) =>
      var status := if failed then Failed else Captured;
      a.(device := if device.Some? then device else a.device, status := status,
         source := if source.Some? then source
                   else if status == Captured && a.kind != Logs then Some(until.wall) else None,
         reused := source.Some? && source.value < a.start.wall)
  }

  function Completed(s: State, i: nat, answer: Answer, until: Stamp): State
    requires i < |s.captures|
  {
    var a := s.captures[i];
    var sequence := Sequence(s, a.order);
    var overlapping := a.overlapping || Busy(s, a.order) || a.startSequence != sequence;
    s.(captures := s.captures[i := Answered(a, answer, until).(end := Some(until), endSequence := sequence,
                                                               overlapping := overlapping)],
       step := s.step + 1)
  }

  function Apply(s: State, e: Event): State
    requires Enabled(s, e)
  {
    match e
    case BeginDispatch(device, mono) => Dispatched(s, device, mono)
    case EndDispatch(i) => Finished(s, i)
    case BeginCapture(kind, target, at) => Started(s, kind, target, at)
    case EndCapture(i, answer, until) => Completed(s, i, answer, until)
  }

  // ---------- freshness ----------

  datatype Freshness = Fresh | Stale | Unknown

  /** The action a report attributes the observation to. */
  datatype Action = Action(device: Option<Device>, dispatchStart: Option<int>)

  function SourceMono(a: Acquisition): Option<int> {
    if a.end == None then None
    else if a.source.Some? then Some(a.end.value.mono + a.source.value - a.end.value.wall)
    else Some(a.end.value.mono)
  }

  predicate ClockBroken(a: Acquisition, clockChanged: bool) {
    || clockChanged
    || (a.end.Some? && a.end.value.wall < a.start.wall)
    || (a.end.Some? && a.source.Some? && a.source.value > a.end.value.wall)
  }

  predicate KnownCapture(s: State, a: Acquisition) {
    a.device.Some? && a.order.Some? && OrderIn(s, a.device) == a.order && a.status == Captured && a.end.Some?
  }

  predicate BeforeAction(a: Acquisition, action: Option<Action>) {
    && action.Some? && action.value.device == a.device && action.value.dispatchStart.Some?
    && SourceMono(a).Some? && SourceMono(a).value < action.value.dispatchStart.value
  }

  predicate Superseded(s: State, a: Acquisition) {
    && InHeap(s, a.order)
    && var o := s.heap[a.order.value];
       || o.sequence > a.endSequence
       || (a.reused && SourceMono(a).Some? && o.lastStarted.Some? && SourceMono(a).value < o.lastStarted.value)
  }

  function ObservationFreshness(s: State, a: Acquisition, action: Option<Action>, clockChanged: bool): Freshness {
    if a.kind == Logs || ClockBroken(a, clockChanged) || !KnownCapture(s, a) then Unknown
    else if BeforeAction(a, action) || Superseded(s, a) then Stale
    else if a.overlapping || a.reused then Unknown
    else Fresh
  }

  // ---------- what every step keeps ----------

  /** The current order of a device is its own and its newest. */
  ghost predicate OrdersSound(s: State) {
    && Unique(s.keys) && (forall k :: k in s.keys <==> k in s.current)
    && (forall k :: k in s.current ==> s.current[k] < |s.heap| && s.heap[s.current[k]].device == k)
    && forall c :: 0 <= c < |s.heap| && s.heap[c].device in s.current ==> c <= s.current[s.heap[c].device]
  }

  predicate On(d: Dispatch, c: nat) { d.order == Some(c) }

  function Running(ds: seq<Dispatch>, c: nat): set<nat> {
    set i: nat | i < |ds| && On(ds[i], c) && ds[i].ended == None
  }

  /** An order object of a running dispatch is current. */
  ghost predicate DispatchSound(s: State, d: Dispatch) {
    && d.began < s.step && (d.ended.Some? ==> d.began < d.ended.value < s.step)
    && (d.device.Some? <==> d.order.Some?)
    && (d.order.Some? ==>
          && d.order.value < |s.heap| && s.heap[d.order.value].device == d.device.value
          && 1 <= d.number <= s.heap[d.order.value].sequence
          && (d.ended == None ==> d.device.value in s.current && s.current[d.device.value] == d.order.value))
  }

  /** The counters count dispatches. */
  ghost predicate CountersSound(s: State) {
    forall c: nat :: c < |s.heap| ==>
      && s.heap[c].active == |Running(s.dispatches, c)|
      && (s.heap[c].sequence > 0 ==> Numbered(s.dispatches, c, s.heap[c].sequence))
  }

  ghost predicate Numbered(ds: seq<Dispatch>, c: nat, n: nat) {
    exists i: nat :: i < |ds| && On(ds[i], c) && ds[i].number == n
  }

  predicate EndedBefore(d: Dispatch, step: nat) { d.ended.Some? && d.ended.value < step }

  /** How one dispatch and one capture stand to each other. */
  ghost predicate PairSound(heap: seq<Order>, d: Dispatch, a: Acquisition) {
    a.order.Some? && a.order.value < |heap| && d.order.Some? ==>
      && (On(d, a.order.value) && d.number <= a.startSequence && !a.overlapping ==> EndedBefore(d, a.began))
      && (On(d, a.order.value) && d.number > a.startSequence ==> a.began < d.began)
      && (d.order.value < a.order.value && d.device == Some(heap[a.order.value].device) ==> EndedBefore(d, a.began))
  }

  ghost predicate Touched(ds: seq<Dispatch>, a: Acquisition) {
    exists i: nat :: i < |ds| && ds[i].order == a.order && ds[i].order.Some? && !EndedBefore(ds[i], a.began)
  }

  ghost predicate CaptureSound(s: State, a: Acquisition) {
    && a.began < s.step
    && (a.order.Some? ==>
          && a.order.value < |s.heap| && a.startSequence <= s.heap[a.order.value].sequence
          && (a.end.Some? ==> a.startSequence <= a.endSequence <= s.heap[a.order.value].sequence)
          && (a.end.Some? && !a.overlapping ==> a.startSequence == a.endSequence)
          && (a.overlapping ==> Touched(s.dispatches, a)))
  }

  ghost predicate Inv(s: State) {
    && OrdersSound(s) && CountersSound(s)
    && (forall i :: 0 <= i < |s.dispatches| ==> DispatchSound(s, s.dispatches[i]))
    && (forall j :: 0 <= j < |s.captures| ==> CaptureSound(s, s.captures[j]))
    && forall i, j :: 0 <= i < |s.dispatches| && 0 <= j < |s.captures| ==>
      PairSound(s.heap, s.dispatches[i], s.captures[j])
  }

  // ---------- the map of orders ----------

  lemma {:induction false} VictimsAreIdle(keys: seq<Device>, excess: nat, device: Device, current: map<Device, nat>,
      heap: seq<Order>)
    ensures forall v :: v in Victims(keys, excess, device, current, heap) ==>
      v != device && v in keys && Idle(v, current, heap)
    decreases |keys|
  {
    if keys != [] {
      VictimsAreIdle(keys[1..], excess, device, current, heap);
      if excess > 0 { VictimsAreIdle(keys[1..], excess - 1, device, current, heap); }
    }
  }

  lemma {:induction false} SurvivorsAre(keys: seq<Device>, excess: nat, device: Device, current: map<Device, nat>,
      heap: seq<Order>)
    requires Unique(keys)
    ensures Unique(Survivors(keys, excess, device, current, heap))
    ensures forall k :: k in Survivors(keys, excess, device, current, heap)
                   <==> k in keys && k !in Victims(keys, excess, device, current, heap)
    decreases |keys|
  {
    if keys != [] && excess > 0 {
      var victim := keys[0] != device && Idle(keys[0], current, heap);
      var less := if victim then excess - 1 else excess;
      SurvivorsAre(keys[1..], less, device, current, heap);
      VictimsAreIdle(keys[1..], less, device, current, heap);
      assert keys == [keys[0]] + keys[1..];
      assert keys[0] !in keys[1..];
    }
  }

  lemma RunningIsBusy(s: State, i: nat)
    requires CountersSound(s) && i < |s.dispatches| && DispatchSound(s, s.dispatches[i])
    requires s.dispatches[i].order.Some? && s.dispatches[i].ended == None
    ensures s.heap[s.dispatches[i].order.value].active > 0
  {
    assert i in Running(s.dispatches, s.dispatches[i].order.value);
  }

  lemma AddOrderSound(s: State, device: Device)
    requires OrdersSound(s) && device !in s.current
    ensures OrdersSound(AddOrder(s, device))
  {
  }

  lemma EvictSound(s: State, device: Device)
    requires OrdersSound(s) && device in s.current
    ensures OrdersSound(Evict(s, device))
    ensures device in Evict(s, device).current
    ensures forall k :: k in s.current && s.heap[s.current[k]].active > 0 ==>
              k in Evict(s, device).current && Evict(s, device).current[k] == s.current[k]
  {
    VictimsAreIdle(s.keys, Excess(s.keys), device, s.current, s.heap);
    SurvivorsAre(s.keys, Excess(s.keys), device, s.current, s.heap);
  }

  lemma WithOrderSound(s: State, device: Device)
    requires OrdersSound(s)
    ensures OrdersSound(WithOrder(s, device))
    ensures device in WithOrder(s, device).current
    ensures var s' := WithOrder(s, device);
      && s.heap <= s'.heap && s'.dispatches == s.dispatches && s'.captures == s.captures && s'.step == s.step
      && (forall c :: |s.heap| <= c < |s'.heap| ==> s'.heap[c] == Order(device, 0, 0, None))
      && forall k :: k in s.current && s.heap[s.current[k]].active > 0 ==>
        k in s'.current && s'.current[k] == s.current[k]
  {
    if device !in s.current {
      AddOrderSound(s, device);
      EvictSound(AddOrder(s, device), device);
    }
  }

  lemma WithOrderKeepsInv(s: State, device: Device)
    requires Inv(s)
    ensures Inv(WithOrder(s, device))
  {
    var s' := WithOrder(s, device);
    WithOrderSound(s, device);
    forall i | 0 <= i < |s.dispatches| ensures DispatchSound(s', s.dispatches[i]) {
      if s.dispatches[i].order.Some? && s.dispatches[i].ended == None { RunningIsBusy(s, i); }
    }
  }

  // ---------- dispatches ----------

  lemma RunningGrows(ds: seq<Dispatch>, d: Dispatch, c: nat)
    requires d.ended == None
    ensures |Running(ds + [d], c)| == |Running(ds, c)| + if On(d, c) then 1 else 0
  {
    var n := |ds|;
    assert Running(ds + [d], c) == Running(ds, c) + (if On(d, c) then {n} else {});
    assert n !in Running(ds, c);
  }

  lemma EnteredCounters(s: State, device: Device, c: nat, mono: int)
    requires CountersSound(s) && c < |s.heap|
    ensures CountersSound(Entered(s, device, c, mono))
  {
    var s' := Entered(s, device, c, mono);
    var n := |s.dispatches|;
    forall k: nat | k < |s.heap|
      ensures s'.heap[k].active == |Running(s'.dispatches, k)|
      ensures s'.heap[k].sequence > 0 ==> Numbered(s'.dispatches, k, s'.heap[k].sequence)
    {
      RunningGrows(s.dispatches, s'.dispatches[n], k);
      if k == c {
        assert On(s'.dispatches[n], c) && s'.dispatches[n].number == s'.heap[c].sequence;
      } else if s.heap[k].sequence > 0 {
        NumberedGrows(s.dispatches, s'.dispatches, k, s.heap[k].sequence);
      }
    }
  }

  lemma NumberedGrows(ds: seq<Dispatch>, ds': seq<Dispatch>, c: nat, m: nat)
    requires |ds| <= |ds'| && Numbered(ds, c, m)
    requires forall i :: 0 <= i < |ds| ==> ds'[i].order == ds[i].order && ds'[i].number == ds[i].number
    ensures Numbered(ds', c, m)
  {
  }

  lemma TouchedGrows(ds: seq<Dispatch>, ds': seq<Dispatch>, a: Acquisition)
    requires |ds| <= |ds'| && Touched(ds, a)
    requires forall i :: 0 <= i < |ds| ==>
               ds'[i].order == ds[i].order && (EndedBefore(ds'[i], a.began) ==> EndedBefore(ds[i], a.began))
    ensures Touched(ds', a)
  {
  }

  lemma EnteredCapture(s: State, device: Device, c: nat, mono: int, a: Acquisition)
    requires c < |s.heap| && CaptureSound(s, a)
    ensures CaptureSound(Entered(s, device, c, mono), a)
  {
    if a.order.Some? && a.overlapping { TouchedGrows(s.dispatches, Entered(s, device, c, mono).dispatches, a); }
  }

  lemma EnteredKeepsInv(s: State, device: Device, c: nat, mono: int)
    requires Inv(s) && device in s.current && s.current[device] == c
    ensures Inv(Entered(s, device, c, mono))
  {
    var s' := Entered(s, device, c, mono);
    EnteredCounters(s, device, c, mono);
    forall j | 0 <= j < |s.captures| ensures CaptureSound(s', s.captures[j]) {
      EnteredCapture(s, device, c, mono, s.captures[j]);
    }
    forall i | 0 <= i < |s'.dispatches| ensures DispatchSound(s', s'.dispatches[i]) {
      if i < |s.dispatches| { assert DispatchSound(s, s.dispatches[i]); }
    }
    forall i, j | 0 <= i < |s'.dispatches| && 0 <= j < |s.captures|
      ensures PairSound(s'.heap, s'.dispatches[i], s.captures[j]) {
      if i < |s.dispatches| { assert PairSound(s.heap, s.dispatches[i], s.captures[j]); }
    }
  }

  lemma PreparedKeepsInv(s: State, device: Option<Device>)
    requires Inv(s)
    ensures Inv(Prepared(s, device))
    ensures device.Some? ==> device.value in Prepared(s, device).current
    ensures Prepared(s, device).dispatches == s.dispatches && Prepared(s, device).captures == s.captures
    ensures Prepared(s, device).step == s.step
  {
    if device.Some? {
      WithOrderKeepsInv(s, device.value);
      WithOrderSound(s, device.value);
    }
  }

  lemma UntrackedKeepsInv(s: State)
    requires Inv(s)
    ensures Inv(Untracked(s, None))
  {
    var s' := Untracked(s, None);
    forall i | 0 <= i < |s'.dispatches| ensures DispatchSound(s', s'.dispatches[i]) {
      if i < |s.dispatches| { assert DispatchSound(s, s.dispatches[i]); }
    }
    forall c: nat | c < |s.heap| ensures Running(s'.dispatches, c) == Running(s.dispatches, c) {}
    forall c: nat | c < |s.heap| && s.heap[c].sequence > 0 ensures Numbered(s'.dispatches, c, s.heap[c].sequence) {
      NumberedGrows(s.dispatches, s'.dispatches, c, s.heap[c].sequence);
    }
    forall j | 0 <= j < |s.captures| ensures CaptureSound(s', s.captures[j]) {
      if s.captures[j].order.Some? && s.captures[j].overlapping {
        TouchedGrows(s.dispatches, s'.dispatches, s.captures[j]);
      }
    }
  }

  lemma DispatchedKeepsInv(s: State, device: Option<Device>, mono: int)
    requires Inv(s)
    ensures Inv(Dispatched(s, device, mono))
  {
    var s1 := Prepared(s, device);
    PreparedKeepsInv(s, device);
    if device.Some? {
      EnteredKeepsInv(s1, device.value, s1.current[device.value], mono);
    } else {
      UntrackedKeepsInv(s);
    }
  }

  lemma FinishedCounters(s: State, i: nat)
    requires CountersSound(s) && i < |s.dispatches| && DispatchSound(s, s.dispatches[i])
      && s.dispatches[i].ended == None
    ensures CountersSound(Finished(s, i))
  {
    var s', d := Finished(s, i), s.dispatches[i];
    if d.order.Some? { RunningIsBusy(s, i); }
    forall c: nat | c < |s.heap|
      ensures s'.heap[c].active == |Running(s'.dispatches, c)|
      ensures s'.heap[c].sequence > 0 ==> Numbered(s'.dispatches, c, s'.heap[c].sequence)
    {
      assert Running(s'.dispatches, c) == Running(s.dispatches, c) - {i};
      assert On(d, c) <==> i in Running(s.dispatches, c);
      if s.heap[c].sequence > 0 { NumberedGrows(s.dispatches, s'.dispatches, c, s.heap[c].sequence); }
    }
  }

  lemma FinishedCapture(s: State, i: nat, a: Acquisition)
    requires i < |s.dispatches| && s.dispatches[i].ended == None && CaptureSound(s, a)
    ensures CaptureSound(Finished(s, i), a)
  {
    if a.order.Some? && a.overlapping { TouchedGrows(s.dispatches, Finished(s, i).dispatches, a); }
  }

  lemma FinishedKeepsInv(s: State, i: nat)
    requires Inv(s) && i < |s.dispatches| && s.dispatches[i].ended == None
    ensures Inv(Finished(s, i))
  {
    var s' := Finished(s, i);
    assert DispatchSound(s, s.dispatches[i]);
    FinishedCounters(s, i);
    forall k | 0 <= k < |s.dispatches| ensures DispatchSound(s', s'.dispatches[k]) {
      assert DispatchSound(s, s.dispatches[k]);
    }
    forall j | 0 <= j < |s.captures| ensures CaptureSound(s', s.captures[j]) {
      assert CaptureSound(s, s.captures[j]);
      FinishedCapture(s, i, s.captures[j]);
    }
    forall k, j | 0 <= k < |s.dispatches| && 0 <= j < |s.captures|
      ensures PairSound(s'.heap, s'.dispatches[k], s.captures[j]) {
      assert PairSound(s.heap, s.dispatches[k], s.captures[j]);
    }
  }

  // ---------- captures ----------

  lemma StartedPair(s: State, d: Dispatch, i: nat, a: Acquisition)
    requires CountersSound(s) && i < |s.dispatches| && s.dispatches[i] == d && DispatchSound(s, d)
    requires a.began == s.step && a.startSequence == Sequence(s, a.order) && a.overlapping == Busy(s, a.order)
    requires a.order.Some? ==> a.order.value < |s.heap|
    requires a.order.Some? ==>
      s.heap[a.order.value].device in s.current && s.current[s.heap[a.order.value].device] == a.order.value
    ensures PairSound(s.heap, d, a)
  {
    if d.order.Some? && d.ended == None { RunningIsBusy(s, i); }
  }

  lemma StartedKeepsInv(s: State, kind: Kind, target: Option<Device>, at: Stamp)
    requires Inv(s)
    ensures Inv(Started(s, kind, target, at))
  {
    var s1, s' := Prepared(s, target), Started(s, kind, target, at);
    var a := s'.captures[|s.captures|];
    PreparedKeepsInv(s, target);
    forall j | 0 <= j < |s'.captures| ensures CaptureSound(s', s'.captures[j]) {
      if j < |s.captures| { assert CaptureSound(s1, s1.captures[j]); }
    }
    forall i | 0 <= i < |s1.dispatches| ensures DispatchSound(s', s1.dispatches[i]) {
      assert DispatchSound(s1, s1.dispatches[i]);
    }
    forall i, j | 0 <= i < |s'.dispatches| && 0 <= j < |s'.captures|
      ensures PairSound(s'.heap, s'.dispatches[i], s'.captures[j]) {
      if j < |s.captures| {
        assert PairSound(s1.heap, s1.dispatches[i], s1.captures[j]);
      } else {
        StartedPair(s1, s1.dispatches[i], i, a);
      }
    }
  }

  lemma CompletedKeepsInv(s: State, j: nat, answer: Answer, until: Stamp)
    requires Inv(s) && j < |s.captures| && s.captures[j].end == None
    ensures Inv(Completed(s, j, answer, until))
  {
  }

  // ---------- runs ----------

  lemma StepKeepsInv(s: State, e: Event)
    requires Inv(s) && Enabled(s, e)
    ensures Inv(Apply(s, e))
  {
    match e
    case BeginDispatch(device, mono) => DispatchedKeepsInv(s, device, mono);
    case EndDispatch(i) => FinishedKeepsInv(s, i);
    case BeginCapture(kind, target, at) => StartedKeepsInv(s, kind, target, at);
    case EndCapture(i, answer, until) => CompletedKeepsInv(s, i, answer, until);
  }

  ghost predicate Legal(s: State, run: seq<Event>)
    decreases |run|
  {
    run == [] || (Enabled(s, run[0]) && Legal(Apply(s, run[0]), run[1..]))
  }

  function Final(s: State, run: seq<Event>): State
    requires Legal(s, run)
    decreases |run|
  {
    if run == [] then s else Final(Apply(s, run[0]), run[1..])
  }

  lemma {:induction false} RunKeepsInv(s: State, run: seq<Event>)
    requires Inv(s) && Legal(s, run)
    ensures Inv(Final(s, run))
    decreases |run|
  {
    if run != [] {
      StepKeepsInv(s, run[0]);
      RunKeepsInv(Apply(s, run[0]), run[1..]);
    }
  }

  /** No dispatch on the observed device ran at any moment since the capture began. */
  ghost predicate Undisturbed(s: State, a: Acquisition) {
    forall i :: 0 <= i < |s.dispatches| && s.dispatches[i].device == a.device ==> EndedBefore(s.dispatches[i], a.began)
  }

  lemma FreshIsUndisturbed(s: State, j: nat, action: Option<Action>, clockChanged: bool)
    requires Inv(s) && j < |s.captures|
    requires ObservationFreshness(s, s.captures[j], action, clockChanged) == Fresh
    ensures Undisturbed(s, s.captures[j])
  {
  }

  /** Whatever was dispatched, captured and evicted before: an observation is called fresh
      exactly when it is a completed capture with a usable clock whose order is still current,
      not reused and not older than its action, and no tracked dispatch on its device ran at
      any moment from the start of the capture to the report. */
  lemma FreshExactly(run: seq<Event>, j: nat, action: Option<Action>, clockChanged: bool)
    requires Legal(EMPTY, run) && j < |Final(EMPTY, run).captures|
    ensures var s := Final(EMPTY, run);
      var a := s.captures[j];
      ObservationFreshness(s, a, action, clockChanged) == Fresh
      <==> && a.kind != Logs && !ClockBroken(a, clockChanged) && KnownCapture(s, a)
           && !BeforeAction(a, action) && !a.reused && Undisturbed(s, a)
  {
    var s := Final(EMPTY, run);
    RunKeepsInv(EMPTY, run);
    var a := s.captures[j];
    if ObservationFreshness(s, a, action, clockChanged) == Fresh {
      FreshIsUndisturbed(s, j, action, clockChanged);
    }
  }

  // ---------- the tracker ----------

  /** What has been decided, and what the rest of the keys will add. */
  ghost predicate Decided(kept: seq<Device>, gone: seq<Device>, left: seq<Device>, excess: nat, device: Device,
                          current: map<Device, nat>, heap: seq<Order>, survivors: seq<Device>, victims: seq<Device>) {
    && kept + Survivors(left, excess, device, current, heap) == survivors
    && gone + Victims(left, excess, device, current, heap) == victims
  }

  lemma OneDecided(kept: seq<Device>, gone: seq<Device>, left: seq<Device>, excess: nat, device: Device,
                   current: map<Device, nat>, heap: seq<Order>, survivors: seq<Device>, victims: seq<Device>)
    requires left != [] && excess > 0
    requires Decided(kept, gone, left, excess, device, current, heap, survivors, victims)
    ensures if left[0] != device && Idle(left[0], current, heap)
            then Decided(kept, gone + [left[0]], left[1..], excess - 1, device, current, heap, survivors, victims)
            else Decided(kept + [left[0]], gone, left[1..], excess, device, current, heap, survivors, victims)
  {
  }

  /** Walks the keys in insertion order until nothing is in excess any more. */
  method SelectIdle(keys: seq<Device>, excess: nat, device: Device, current: map<Device, nat>, heap: seq<Order>)
    returns (kept: seq<Device>, gone: seq<Device>)
    ensures kept == Survivors(keys, excess, device, current, heap)
    ensures gone == Victims(keys, excess, device, current, heap)
  {
    var left, over := keys, excess;
    kept, gone := [], [];
    while left != [] && over > 0
      invariant Decided(kept, gone, left, over, device, current, heap,
                        Survivors(keys, excess, device, current, heap), Victims(keys, excess, device, current, heap))
      decreases |left|
    {
      OneDecided(kept, gone, left, over, device, current, heap,
                 Survivors(keys, excess, device, current, heap), Victims(keys, excess, device, current, heap));
      if left[0] != device && Idle(left[0], current, heap) {
        gone := gone + [left[0]];
        over := over - 1;
      } else {
        kept := kept + [left[0]];
      }
      left := left[1..];
    }
    kept := kept + left;
  }

  class Tracker {
    var heap: seq<Order>
    var keys: seq<Device>
    var current: map<Device, nat>
    var dispatches: seq<Dispatch>
    var captures: seq<Acquisition>
    var step: nat

    function View(): State reads this { State(heap, keys, current, dispatches, captures, step) }

    constructor ()
      ensures View() == EMPTY
    {
      heap := [];
      keys := [];
      current := map[];
      dispatches := [];
      captures := [];
      step := 0;
    }

    method OrderFor(device: Device)
      modifies this
      ensures View() == WithOrder(old(View()), device)
    {
      if device in current { return; }
      current := current[device := |heap|];
      heap := heap + [Order(device, 0, 0, None)];
      keys := keys + [device];
      if |keys| > ORDERS { DropIdle(device); }
    }

    method DropIdle(device: Device)
      modifies this
      ensures View() == Evict(old(View()), device)
    {
      var kept, gone := SelectIdle(keys, Excess(keys), device, current, heap);
      keys := kept;
      current := current - Gone(gone);
    }

    method BeginDispatch(device: Option<Device>, mono: int)
      modifies this
      ensures View() == Dispatched(old(View()), device, mono)
    {
      if device.Some? { OrderFor(device.value); }
      var order := OrderIn(View(), device);
      var number := 0;
      if InHeap(View(), order) {
        var o := heap[order.value];
        number := o.sequence + 1;
        heap := heap[order.value := o.(sequence := number, active := o.active + 1, lastStarted := Some(mono))];
      } else {
        order := None;
      }
      dispatches := dispatches + [Dispatch(device, order, number, step, None)];
      step := step + 1;
    }

    method EndDispatch(i: nat)
      requires i < |dispatches|
      modifies this
      ensures View() == Finished(old(View()), i)
    {
      var d := dispatches[i];
      if InHeap(View(), d.order) && heap[d.order.value].active > 0 {
        var o := heap[d.order.value];
        heap := heap[d.order.value := o.(active := o.active - 1)];
      }
      dispatches := dispatches[i := d.(ended := Some(step))];
      step := step + 1;
    }

    method BeginCapture(kind: Kind, target: Option<Device>, at: Stamp)
      modifies this
      ensures View() == Started(old(View()), kind, target, at)
    {
      if target.Some? { OrderFor(target.value); }
      var order := OrderIn(View(), target);
      var a := Acquisition(kind, Failed, target, None, at, None, order, Sequence(View(), order), 0, Busy(View(), order),
                           false, step);
      captures := captures + [a];
      step := step + 1;
    }

    method EndCapture(i: nat, answer: Answer, until: Stamp)
      requires i < |captures|
      modifies this
      ensures View() == Completed(old(View()), i, answer, until)
    {
      var a := captures[i];
      var sequence := Sequence(View(), a.order);
      var overlapping := a.overlapping || Busy(View(), a.order) || a.startSequence != sequence;
      var b := a;
      if answer.Returned? {
        if answer.device.Some? { b := b.(device := answer.device); }
        b := b.(status := if answer.failed then Failed else Captured, source := None, reused := false);
        if answer.source.Some? {
          b := b.(source := answer.source, reused := answer.source.value < a.start.wall);
        } else if b.status == Captured && b.kind != Logs {
          b := b.(source := Some(until.wall));
        }
      }
      captures := captures[i := b.(end := Some(until), endSequence := sequence, overlapping := overlapping)];
      step := step + 1;
    }
  }
}
