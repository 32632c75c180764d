/** The router over both trace backends: it bounds the sessions that still own resources. */
module TraceRouter {
  import opened Collections
  import opened Wrappers

  const CAPACITY: nat := 4
  const KEPT: nat := 100
  const EXPIRY: int := 600000

  datatype Platform = Android | Ios

  datatype Key = Key(platform: Platform, device: string)

  datatype Route = Route(key: Key, active: bool, touched: int)

  /** A backend session; it holds resources until its cleanup is complete. */
  datatype Session = Session(key: Key, complete: bool)

  /** A start between the admission check and its end; `created` once the backend has made the
      session. */
  datatype Flight = Flight(created: Option<nat>)

  /** `order`: the routes in insertion order.  `pending`: the router's pending keys, with the
      start that holds each. */
  datatype State = State(sessions: map<nat, Session>, order: seq<nat>, routes: map<nat, Route>,
                         pending: map<Key, Flight>, closing: bool)

  const NONE := State(map[], [], map[], map[], false)

  function Active(s: State): set<nat> { set id | id in s.routes && s.routes[id].active }

  /** Sessions that still hold resources. */
  function Held(s: State): set<nat> { set id | id in s.sessions && !s.sessions[id].complete }

  // ---------- tracking ----------

  function Terminal(order: seq<nat>, routes: map<nat, Route>): seq<nat> {
    if order == [] then []
    else
      var id := order[|order| - 1];
      Terminal(order[..|order| - 1], routes) + if id in routes && !routes[id].active then [id] else []
  }

  predicate Outdated(terminal: seq<nat>, i: nat, routes: map<nat, Route>, now: int)
    requires i < |terminal|
  {
    (terminal[i] in routes && now - routes[terminal[i]].touched > EXPIRY) || i + KEPT < |terminal|
  }

  /** Of the first `n` terminal routes, those to forget. */
  function Dropped(terminal: seq<nat>, n: nat, routes: map<nat, Route>, now: int): set<nat>
    requires n <= |terminal|
  {
    if n == 0 then {}
    else
      Dropped(terminal, n - 1, routes, now)
      + if Outdated(terminal, n - 1, routes, now) then {terminal[n - 1]} else {}
  }

  function Without(order: seq<nat>, gone: set<nat>): seq<nat> {
    if order == [] then []
    else Without(order[..|order| - 1], gone) + if order[|order| - 1] in gone then [] else [order[|order| - 1]]
  }

  /** A result for session `id` arrives; it said whether the cleanup was complete. */
  function Tracked(s: State, id: nat, key: Key, complete: bool, now: int): State {
    var routes := s.routes[id := Route(key, !complete, now)];
    var order := if id in s.routes then s.order else s.order + [id];
    var terminal := Terminal(order, routes);
    var gone := Dropped(terminal, |terminal|, routes, now);
    s.(routes := routes - gone, order := Without(order, gone))
  }

  // ---------- steps ----------

  predicate Admits(s: State, key: Key) {
    && !s.closing && key !in s.pending
    && (forall id :: id in Active(s) ==> s.routes[id].key != key)
    && |Active(s)| + |s.pending| < CAPACITY
  }

  /** A backend's own check. */
  predicate BackendAdmits(s: State, key: Key) {
    && (forall id :: id in Held(s) ==> s.sessions[id].key != key)
    && |Of(s, key.platform)| < CAPACITY
  }

  function Of(s: State, platform: Platform): set<nat> {
    set id | id in Held(s) && s.sessions[id].key.platform == platform
  }

  datatype Action =
    | Admit(key: Key)                                      // the check at the head of a start
    | Create(key: Key, id: nat, session: Key)              // the backend makes a session for the start of `key`
    | Return(key: Key, complete: bool, now: int)           // the start returns its session's result
    | Refuse(key: Key)                                     // the start ends without a session
    | Finish(id: nat)                                      // cleanup of a session becomes complete
    | Report(id: nat, complete: bool, now: int)            // a status, stop, cancel or refresh returns
    | Close

  /** A backend makes at most one session a start, on the same platform and with a fresh id, and
      only if its own check passes; results report completion only once it happened. */
  predicate Enabled(s: State, a: Action) {
    match a
    case Create(key, id, session) =>
      && key in s.pending && s.pending[key].created == None && id !in s.sessions && id !in s.routes
      && session.platform == key.platform && BackendAdmits(s, session)
    case Return(key, complete, _) =>
      && key in s.pending && s.pending[key].created.Some? && s.pending[key].created.value in s.sessions
      && (complete ==> s.sessions[s.pending[key].created.value].complete)
    case Refuse(key) => key in s.pending && s.pending[key].created == None
    case Finish(id) => id in s.sessions
    case Report(id, complete, _) => id in s.sessions && (complete ==> s.sessions[id].complete)
    case _ => true
  }

  function Apply(s: State, a: Action): State
    requires Enabled(s, a)
  {
    match a
    case Admit(key) => if Admits(s, key) then s.(pending := s.pending[key := Flight(None)]) else s
    case Create(key, id, session) =>
      s.(sessions := s.sessions[id := Session(session, false)], pending := s.pending[key := Flight(Some(id))])
    case Return(key, complete, now) =>
      var id := s.pending[key].created.value;
      Tracked(s, id, s.sessions[id].key, complete, now).(pending := s.pending - {key})
    case Refuse(key) => s.(pending := s.pending - {key})
    case Finish(id) => s.(sessions := s.sessions[id := s.sessions[id].(complete := true)])
    case Report(id, complete, now) => Tracked(s, id, s.sessions[id].key, complete, now)
    case Close => s.(closing := true)
  }

  // ---------- what every step keeps ----------

  predicate Made(pending: map<Key, Flight>, key: Key, id: nat) { key in pending && pending[key].created == Some(id) }

  /** Sessions whose start is still under way. */
  function Flying(pending: map<Key, Flight>): set<nat> {
    set key | key in pending && pending[key].created.Some? :: pending[key].created.value
  }

  /** Resources held or about to be: sessions past their start, and starts under way. */
  function Load(s: State): nat { |Held(s) - Flying(s.pending)| + |s.pending| }

  ghost predicate FlightsSound(s: State) {
    && (forall key, id :: Made(s.pending, key, id) ==> id in s.sessions)
    && forall j, k, id :: Made(s.pending, j, id) && Made(s.pending, k, id) ==> j == k
  }

  ghost predicate Covered(s: State) {
    forall id :: id in Held(s) ==> id in Active(s) || id in Flying(s.pending)
  }

  ghost predicate OnePerDevice(s: State) {
    forall i, j :: i in Held(s) && j in Held(s) && i != j ==> s.sessions[i].key != s.sessions[j].key
  }

  ghost predicate Inv(s: State) {
    && FlightsSound(s)
    && Covered(s)
    && OnePerDevice(s)
    && Load(s) <= CAPACITY
  }

  lemma InFlying(pending: map<Key, Flight>, id: nat)
    ensures id in Flying(pending) <==> exists key :: Made(pending, key, id)
  {
    if id in Flying(pending) {
      var key :| key in pending && pending[key].created.Some? && pending[key].created.value == id;
      assert Made(pending, key, id);
    }
  }

  lemma {:induction false} FlyingCount(pending: map<Key, Flight>)
    ensures |Flying(pending)| <= |pending|
    decreases |pending|
  {
    if pending != map[] {
      var key :| key in pending;
      var rest := pending - {key};
      FlyingCount(rest);
      var own: set<nat> := if pending[key].created.Some? then {pending[key].created.value} else {};
      forall id | id in Flying(pending) ensures id in Flying(rest) + own {
        InFlying(pending, id);
        var k :| Made(pending, k, id);
        if k != key { assert Made(rest, k, id); InFlying(rest, id); }
      }
      SubsetCount(Flying(pending), Flying(rest) + own);
      assert pending.Keys == rest.Keys + {key};
    }
  }

  lemma AtMostBoth(a: set<nat>, b: set<nat>)
    ensures |a| <= |a - b| + |b|
  {
  }

  /** What the whole router bounds. */
  lemma HeldWithinLoad(s: State)
    ensures |Held(s)| <= Load(s)
  {
    FlyingCount(s.pending);
    AtMostBoth(Held(s), Flying(s.pending));
  }

  /** A step that makes and ends no session keeps the invariant if it loses no active route and
      no start under way. */
  lemma SameSessionsKeepInv(s: State, s': State)
    requires Inv(s) && s'.sessions == s.sessions && FlightsSound(s') && Covered(s')
    requires Load(s') <= CAPACITY
    ensures Inv(s')
  {
  }

  // ---------- tracking ----------

  lemma {:induction false} TerminalIsInactive(order: seq<nat>, routes: map<nat, Route>)
    ensures forall id :: id in Terminal(order, routes) ==> id in routes && !routes[id].active
  {
    if order != [] { TerminalIsInactive(order[..|order| - 1], routes); }
  }

  lemma {:induction false} DroppedIsTerminal(terminal: seq<nat>, n: nat, routes: map<nat, Route>, now: int)
    requires n <= |terminal|
    ensures forall id :: id in Dropped(terminal, n, routes, now) ==> id in terminal
  {
    if n > 0 { DroppedIsTerminal(terminal, n - 1, routes, now); }
  }

  /** Tracking forgets no active route. */
  lemma TrackedActive(s: State, id: nat, key: Key, complete: bool, now: int)
    ensures Active(Tracked(s, id, key, complete, now)) == if complete then Active(s) - {id} else Active(s) + {id}
  {
    var routes := s.routes[id := Route(key, !complete, now)];
    var order := if id in s.routes then s.order else s.order + [id];
    var terminal := Terminal(order, routes);
    TerminalIsInactive(order, routes);
    DroppedIsTerminal(terminal, |terminal|, routes, now);
  }

  // ---------- steps ----------

  lemma AdmitFlights(s: State, key: Key)
    requires FlightsSound(s) && key !in s.pending
    ensures var s' := s.(pending := s.pending[key := Flight(None)]);
      FlightsSound(s') && Flying(s'.pending) == Flying(s.pending) && |s'.pending| == |s.pending| + 1
  {
    var pending := s.pending[key := Flight(None)];
    forall k, id ensures Made(pending, k, id) <==> Made(s.pending, k, id) {}
    forall id ensures id in Flying(pending) <==> id in Flying(s.pending) {
      InFlying(pending, id);
      InFlying(s.pending, id);
    }
    assert pending.Keys == s.pending.Keys + {key};
  }

  lemma AdmitKeepsInv(s: State, key: Key)
    requires Inv(s) && Admits(s, key)
    ensures Inv(s.(pending := s.pending[key := Flight(None)]))
  {
    var s' := s.(pending := s.pending[key := Flight(None)]);
    AdmitFlights(s, key);
    assert Held(s') == Held(s) && Active(s') == Active(s);
    SubsetCount(Held(s) - Flying(s.pending), Active(s));
    SameSessionsKeepInv(s, s');
  }

  lemma CreateFlights(s: State, key: Key, id: nat, session: Key)
    requires FlightsSound(s) && Enabled(s, Create(key, id, session))
    ensures var s' := Apply(s, Create(key, id, session));
      && FlightsSound(s')
      && Flying(s'.pending) == Flying(s.pending) + {id}
      && |s'.pending| == |s.pending|
      && id !in Flying(s.pending)
  {
    var pending := s.pending[key := Flight(Some(id))];
    forall k, i ensures Made(pending, k, i) <==> Made(s.pending, k, i) || (k == key && i == id) {}
    forall i ensures i in Flying(pending) <==> i in Flying(s.pending) || i == id {
      InFlying(pending, i);
      InFlying(s.pending, i);
      if i == id { assert Made(pending, key, id); }
    }
    InFlying(s.pending, id);
    assert pending.Keys == s.pending.Keys;
  }

  lemma CreateKeepsInv(s: State, key: Key, id: nat, session: Key)
    requires Inv(s) && Enabled(s, Create(key, id, session))
    ensures Inv(Apply(s, Create(key, id, session)))
  {
    var s' := Apply(s, Create(key, id, session));
    CreateFlights(s, key, id, session);
    assert Held(s') == Held(s) + {id};
    assert Held(s') - Flying(s'.pending) == Held(s) - Flying(s.pending);
  }

  lemma LandFlights(s: State, key: Key)
    requires FlightsSound(s) && key in s.pending
    ensures var pending := s.pending - {key};
      && (forall k, i :: Made(pending, k, i) ==> Made(s.pending, k, i))
      && |pending| == |s.pending| - 1
      && Flying(pending) == Flying(s.pending) - (
        if s.pending[key].created.Some? then {s.pending[key].created.value} else {})
  {
    var pending := s.pending - {key};
    forall k, i ensures Made(pending, k, i) <==> Made(s.pending, k, i) && k != key {}
    forall i ensures i in Flying(pending) <==> i in Flying(s.pending) && s.pending[key].created != Some(i) {
      InFlying(pending, i);
      InFlying(s.pending, i);
      if s.pending[key].created == Some(i) { assert Made(s.pending, key, i); }
    }
    assert s.pending.Keys == pending.Keys + {key};
  }

  lemma ReturnKeepsInv(s: State, key: Key, complete: bool, now: int)
    requires Inv(s) && Enabled(s, Return(key, complete, now))
    ensures Inv(Apply(s, Return(key, complete, now)))
  {
    var id := s.pending[key].created.value;
    var s' := Apply(s, Return(key, complete, now));
    LandFlights(s, key);
    TrackedActive(s, id, s.sessions[id].key, complete, now);
    assert Active(s') == Active(Tracked(s, id, s.sessions[id].key, complete, now));
    assert Held(s') == Held(s);
    SubsetCount(Held(s) - Flying(s'.pending), (Held(s) - Flying(s.pending)) + {id});
    SameSessionsKeepInv(s, s');
  }

  lemma RefuseFlights(s: State, key: Key)
    requires FlightsSound(s) && key in s.pending && s.pending[key].created == None
    ensures var s' := s.(pending := s.pending - {key});
      FlightsSound(s') && Flying(s'.pending) == Flying(s.pending) && |s'.pending| == |s.pending| - 1
  {
    LandFlights(s, key);
    assert Flying(s.pending - {key}) == Flying(s.pending);
  }

  lemma RefuseKeepsInv(s: State, key: Key)
    requires Inv(s) && Enabled(s, Refuse(key))
    ensures Inv(Apply(s, Refuse(key)))
  {
    var s' := Apply(s, Refuse(key));
    RefuseFlights(s, key);
    assert Held(s') == Held(s) && Active(s') == Active(s);
    assert Held(s') - Flying(s'.pending) == Held(s) - Flying(s.pending);
    SameSessionsKeepInv(s, s');
  }

  lemma FinishHeld(s: State, id: nat)
    requires id in s.sessions
    ensures Held(Apply(s, Finish(id))) == Held(s) - {id} && Active(Apply(s, Finish(id))) == Active(s)
  {
  }

  lemma FinishKeepsInv(s: State, id: nat)
    requires Inv(s) && id in s.sessions
    ensures Inv(Apply(s, Finish(id)))
  {
    var s' := Apply(s, Finish(id));
    FinishHeld(s, id);
    SubsetCount(Held(s') - Flying(s.pending), Held(s) - Flying(s.pending));
    assert OnePerDevice(s');
  }

  lemma ReportKeepsInv(s: State, id: nat, complete: bool, now: int)
    requires Inv(s) && Enabled(s, Report(id, complete, now))
    ensures Inv(Apply(s, Report(id, complete, now)))
  {
    var s' := Apply(s, Report(id, complete, now));
    TrackedActive(s, id, s.sessions[id].key, complete, now);
    assert Held(s') == Held(s);
  }

  lemma StepKeepsInv(s: State, a: Action)
    requires Inv(s) && Enabled(s, a)
    ensures Inv(Apply(s, a))
  {
    match a
    case Admit(key) => if Admits(s, key) { AdmitKeepsInv(s, key); }
    case Create(key, id, session) => CreateKeepsInv(s, key, id, session);
    case Return(key, complete, now) => ReturnKeepsInv(s, key, complete, now);
    case Refuse(key) => RefuseKeepsInv(s, key);
    case Finish(id) => FinishKeepsInv(s, id);
    case Report(id, complete, now) => ReportKeepsInv(s, id, complete, now);
    case Close =>
      assert Held(Apply(s, a)) == Held(s) && Active(Apply(s, a)) == Active(s);
      SameSessionsKeepInv(s, Apply(s, a));
  }

  ghost predicate Legal(s: State, run: seq<Action>)
    decreases |run|
  {
    run == [] || (Enabled(s, run[0]) && Legal(Apply(s, run[0]), run[1..]))
  }

  function Final(s: State, run: seq<Action>): State
    requires Legal(s, run)
    decreases |run|
  {
    if run == [] then s else Final(Apply(s, run[0]), run[1..])
  }

  lemma {:induction false} RunKeepsInv(s: State, run: seq<Action>)
    requires Inv(s) && Legal(s, run)
    ensures Inv(Final(s, run))
    decreases |run|
  {
    if run != [] {
      StepKeepsInv(s, run[0]);
      RunKeepsInv(Apply(s, run[0]), run[1..]);
    }
  }

  /** In every interleaving of starts, reports and finalisations: the sessions not fully cleaned
      up, of both backends together, number at most four, and no two share a device. */
  lemma AtMostFourTogether(run: seq<Action>)
    requires Legal(NONE, run)
    ensures |Held(Final(NONE, run))| <= CAPACITY
    ensures OnePerDevice(Final(NONE, run))
  {
    assert Held(NONE) == {} && Flying(NONE.pending) == {};
    RunKeepsInv(NONE, run);
    HeldWithinLoad(Final(NONE, run));
  }

  lemma WaitingCount(pending: map<Key, Flight>, key: Key)
    requires key in pending && pending[key].created == None
    ensures |Flying(pending)| < |pending|
  {
    var rest := pending - {key};
    forall id | id in Flying(pending) ensures id in Flying(rest) {
      InFlying(pending, id);
      var k :| Made(pending, k, id);
      assert Made(rest, k, id);
      InFlying(rest, id);
    }
    FlyingCount(rest);
    SubsetCount(Flying(pending), Flying(rest));
    assert pending.Keys == rest.Keys + {key};
  }

  /** A start the router admitted never meets a backend's own limit of four; all a backend can
      still refuse is a second session of one device. */
  lemma RouterBoundSuffices(s: State, key: Key, platform: Platform)
    requires Inv(s) && key in s.pending && s.pending[key].created == None
    ensures |Of(s, platform)| < CAPACITY
  {
    WaitingCount(s.pending, key);
    AtMostBoth(Held(s), Flying(s.pending));
    SubsetCount(Of(s, platform), Held(s));
  }

  // ---------- the router object ----------

  class SystemTraceRouter {
    var order: seq<nat>
    var routes: map<nat, Route>
    var pending: map<Key, Flight>
    var closing: bool

    /** The state with the backends' sessions, which the router does not see. */
    function View(sessions: map<nat, Session>): State reads this { State(sessions, order, routes, pending, closing) }

    constructor ()
      ensures View(map[]) == NONE
    {
      order := [];
      routes := map[];
      pending := map[];
      closing := false;
    }

    method Track(id: nat, key: Key, complete: bool, now: int)
      modifies this
      ensures forall sessions :: View(sessions) == Tracked(old(View(sessions)), id, key, complete, now)
    {
      if id !in routes { order := order + [id]; }
      routes := routes[id := Route(key, !complete, now)];
      var terminal := Inactive();
      var all := routes;
      ghost var known := order;
      var gone: set<nat> := {};
      for i := 0 to |terminal|
        invariant order == known && routes == all - gone && pending == old(pending) && closing == old(closing)
        invariant gone == Dropped(terminal, i, all, now)
      {
        if Outdated(terminal, i, all, now) {
          routes := routes - {terminal[i]};
          gone := gone + {terminal[i]};
        }
      }
      order := Without(order, gone);
    }

    method Inactive() returns (terminal: seq<nat>)
      ensures terminal == Terminal(order, routes)
    {
      terminal := [];
      for i := 0 to |order|
        invariant terminal == Terminal(order[..i], routes)
      {
        assert order[..i + 1][..i] == order[..i];
        if order[i] in routes && !routes[order[i]].active { terminal := terminal + [order[i]]; }
      }
      assert order[..|order|] == order;
    }

    /** The check at the head of a start, with no await between it and the reservation. */
    method Reserve(key: Key) returns (admitted: bool)
      modifies this
      ensures forall sessions :: admitted == Admits(old(View(sessions)), key)
      ensures forall sessions :: View(sessions) == Apply(old(View(sessions)), Admit(key))
    {
      var active := set id | id in routes && routes[id].active;
      assert active == Active(View(map[]));
      assert forall sessions :: Active(View(sessions)) == active;
      admitted := !closing && key !in pending && (forall id :: id in active ==> routes[id].key != key)
               && |active| + |pending| < CAPACITY;
      if admitted { pending := pending[key := Flight(None)]; }
    }

    /** The end of a start, with or without a session. */
    method Release(key: Key)
      modifies this
      ensures forall sessions :: View(sessions) == old(View(sessions)).(pending := old(pending) - {key})
    {
      pending := pending - {key};
    }
  }
}
