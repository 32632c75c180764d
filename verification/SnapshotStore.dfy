/** The snapshot store: per device a revision number, the signature behind it, and a bounded,
    expiring history of captures. */
module SnapshotStore {
  import opened Wrappers
  import opened D = SnapshotDelta

  const EXPIRY: int := 10 * 60 * 1000
  const KEPT: nat := 8

  datatype Key = Key(platform: string, device: string)

  /** `frame`: the screen and its resolution. */
  datatype Tree = Tree(frame: int, elements: seq<Elem>)

  datatype Signature = OfTree(frame: int, elements: seq<Sig>) | Override(text: string)

  /** A missing or failed tree is `None`. */
  datatype Observation = Observation(tree: Option<Tree>, override: Option<string>)

  /** One retained revision: its records, when it was last seen, and how many elements its
      tree had beyond the recorded ones. */
  datatype Capture = Capture(records: Records, at: int, over: nat)

  /** Retained revisions in insertion order. */
  datatype History = History(order: seq<nat>, captures: map<nat, Capture>)

  datatype State = State(revision: nat, signature: Option<Signature>, records: Records, history: History,
                         previous: Option<nat>, updatedAt: int)

  datatype Store = Store(next: nat, states: map<Key, State>)

  datatype Metadata = Metadata(revision: nat, summary: Option<Summary>)

  const FRESH := Store(1, map[])

  function Signed(o: Observation): Option<Signature> {
    if o.override.Some? then Some(Override(o.override.value))
    else if o.tree.Some? then Some(OfTree(o.tree.value.frame, Sigs(o.tree.value.elements)))
    else None
  }

  /** The state of a device, unless it expired. */
  function Live(s: Store, key: Key, now: int): Option<State> {
    if key in s.states && now - s.states[key].updatedAt <= EXPIRY then Some(s.states[key]) else None
  }

  function Over(t: Tree): nat { if |t.elements| > ELEMENTS then |t.elements| - ELEMENTS else 0 }

  // ---------- history ----------

  const EMPTY := History([], map[])

  function Add(h: History, revision: nat, records: Records, now: int, over: nat): History {
    var before := if revision in h.captures then h.captures[revision].over else 0;
    History(if revision in h.captures then h.order else h.order + [revision],
            h.captures[revision := Capture(records, now, if over > 0 then over else before)])
  }

  predicate Fresh(h: History, revision: nat, now: int) {
    revision in h.captures && now - h.captures[revision].at <= EXPIRY
  }

  function Filtered(order: seq<nat>, h: History, now: int): seq<nat> {
    if order == [] then []
    else Filtered(order[..|order| - 1], h, now) + if Fresh(h, order[|order| - 1], now) then [order[|order| - 1]] else []
  }

  function Restricted(h: History, order: seq<nat>): History {
    History(order, map r | r in h.captures && r in order :: h.captures[r])
  }

  function Newest(order: seq<nat>): seq<nat> { if |order| > KEPT then order[|order| - KEPT..] else order }

  function Retained(previous: Option<State>, revision: nat, records: Records, tree: Option<Tree>, now: int): History {
    var h := if previous.Some? then previous.value.history else EMPTY;
    var h' := if tree.Some? then Add(h, revision, records, now, Over(tree.value)) else h;
    Restricted(h', Newest(Filtered(h'.order, h', now)))
  }

  // ---------- one observation ----------

  function RecordsOf(tree: Option<Tree>, previous: Option<State>): Records {
    if tree.Some? then Build(Recorded(tree.value.elements))
    else if previous.Some? then previous.value.records else NONE
  }

  /** The revision is kept by an unsigned observation and by one signed as the last. */
  function Revision(s: Store, key: Key, o: Observation, now: int): nat {
    var previous := Live(s, key, now);
    if previous.Some? && (Signed(o) == None || previous.value.signature == Signed(o)) then previous.value.revision
    else s.next
  }

  function Next(s: Store, key: Key, o: Observation, now: int): State {
    var previous := Live(s, key, now);
    var records := RecordsOf(o.tree, previous);
    var revision := Revision(s, key, o, now);
    State(revision, Signed(o), records, Retained(previous, revision, records, o.tree, now),
          if previous.Some? then Some(previous.value.revision) else None, now)
  }

  function Observed(s: Store, key: Key, o: Observation, now: int): Store {
    var state := Next(s, key, o, now);
    Store(if state.revision == s.next then s.next + 1 else s.next, s.states[key := state])
  }

  function Reported(s: Store, key: Key, o: Observation, now: int): Metadata {
    var previous, state := Live(s, key, now), Next(s, key, o, now);
    Metadata(state.revision,
             if o.tree.Some? && previous.Some? then Some(Summarised(previous.value.records, state.records)) else None)
  }

  function Forgotten(s: Store, keys: set<Key>): Store { s.(states := s.states - keys) }

  // ---------- what every step keeps ----------

  ghost predicate Strict(order: seq<nat>) {
    forall i, j :: 0 <= i < j < |order| ==> order[i] < order[j]
  }

  ghost predicate HistorySound(h: History, revision: nat, updatedAt: int) {
    && Strict(h.order) && |h.order| <= KEPT
    && (forall r :: r in h.order <==> r in h.captures)
    && forall r :: r in h.captures ==>
         r <= revision && D.Valid(h.captures[r].records) && 0 <= updatedAt - h.captures[r].at <= EXPIRY
  }

  ghost predicate StateSound(st: State) {
    && D.Valid(st.records)
    && HistorySound(st.history, st.revision, st.updatedAt)
    && (st.signature.Some? && st.signature.value.OfTree? ==>
          exists es :: Sigs(es) == st.signature.value.elements && st.records == Build(Recorded(es)))
  }

  ghost predicate Inv(s: Store) {
    forall key :: key in s.states ==> StateSound(s.states[key]) && 0 < s.states[key].revision < s.next
  }

  lemma {:induction false} FilteredIs(order: seq<nat>, h: History, now: int)
    requires Strict(order)
    ensures Strict(Filtered(order, h, now))
    ensures |Filtered(order, h, now)| <= |order|
    ensures forall r :: r in Filtered(order, h, now) <==> r in order && Fresh(h, r, now)
    decreases |order|
  {
    if order != [] {
      var n := |order| - 1;
      FilteredIs(order[..n], h, now);
      assert order == order[..n] + [order[n]];
      var front := Filtered(order[..n], h, now);
      forall i | 0 <= i < |front| ensures front[i] < order[n] { assert front[i] in front; }
    }
  }

  /** What survives expiry and the bound. */
  lemma RestrictedSound(h: History, revision: nat, now: int)
    requires Strict(h.order) && (forall r :: r in h.order <==> r in h.captures)
    requires forall r :: r in h.captures ==>
               r <= revision && D.Valid(h.captures[r].records) && h.captures[r].at <= now
    ensures HistorySound(Restricted(h, Newest(Filtered(h.order, h, now))), revision, now)
  {
    FilteredIs(h.order, h, now);
  }

  lemma AddedStays(h: History, revision: nat, records: Records, now: int, over: nat)
    requires var h' := Add(h, revision, records, now, over);
      Strict(h'.order) && forall r :: r in h'.order ==> r <= revision
    requires revision in h.captures ==> revision in h.order
    ensures var h' := Add(h, revision, records, now, over);
      var kept := Restricted(h', Newest(Filtered(h'.order, h', now)));
      revision in kept.captures && kept.captures[revision].records == records && kept.captures[revision].at == now
  {
    var h' := Add(h, revision, records, now, over);
    LastIsNewest(h', revision);
    LastStays(h'.order, h', now);
  }

  lemma AddSoundAtNow(h: History, revision: nat, before: nat, at: int, records: Records, now: int, over: nat)
    requires HistorySound(h, before, at) && before <= revision && at <= now && D.Valid(records)
    ensures var h' := Add(h, revision, records, now, over);
      && Strict(h'.order) && (forall r :: r in h'.order <==> r in h'.captures)
      && forall r :: r in h'.captures ==> r <= revision && D.Valid(h'.captures[r].records) && h'.captures[r].at <= now
  {
    if h.order != [] && revision !in h.captures { assert h.order[|h.order| - 1] in h.captures; }
  }

  /** History after an observation: at most eight revisions, none older than ten minutes, and
      a valid capture is retained under its own revision. */
  lemma RetainedSound(previous: Option<State>, revision: nat, records: Records, tree: Option<Tree>, now: int)
    requires previous.Some? ==> HistorySound(previous.value.history, previous.value.revision, previous.value.updatedAt)
    requires previous.Some? ==> previous.value.revision <= revision && previous.value.updatedAt <= now
    requires D.Valid(records)
    ensures HistorySound(Retained(previous, revision, records, tree, now), revision, now)
    ensures tree.Some? ==> var h := Retained(previous, revision, records, tree, now);
              revision in h.captures && h.captures[revision].records == records && h.captures[revision].at == now
  {
    var h := if previous.Some? then previous.value.history else EMPTY;
    var before := if previous.Some? then previous.value.revision else revision;
    var at := if previous.Some? then previous.value.updatedAt else now;
    assert HistorySound(h, before, at);
    if tree.Some? {
      AddSoundAtNow(h, revision, before, at, records, now, Over(tree.value));
      RestrictedSound(Add(h, revision, records, now, Over(tree.value)), revision, now);
      AddedStays(h, revision, records, now, Over(tree.value));
    } else {
      RestrictedSound(h, revision, now);
    }
  }

  lemma LastIsNewest(h: History, revision: nat)
    requires Strict(h.order) && revision in h.order && forall r :: r in h.order ==> r <= revision
    ensures h.order[|h.order| - 1] == revision
  {
    var i :| 0 <= i < |h.order| && h.order[i] == revision;
    assert h.order[|h.order| - 1] in h.order;
  }

  lemma LastStays(order: seq<nat>, h: History, now: int)
    requires order != [] && Strict(order) && Fresh(h, order[|order| - 1], now)
    ensures order[|order| - 1] in Newest(Filtered(order, h, now))
  {
    var f := Filtered(order, h, now);
    assert f[|f| - 1] == order[|order| - 1];
    var newest := Newest(f);
    assert newest[|newest| - 1] == f[|f| - 1];
  }

  lemma NextSound(s: Store, key: Key, o: Observation, now: int)
    requires Inv(s) && 0 < s.next
    requires key in s.states ==> s.states[key].updatedAt <= now
    ensures StateSound(Next(s, key, o, now))
    ensures 0 < Next(s, key, o, now).revision <= s.next
    ensures o.tree.Some? ==> var st := Next(s, key, o, now);
              && st.revision in st.history.captures && st.history.captures[st.revision].at == now
              && st.history.captures[st.revision].records == Build(Recorded(o.tree.value.elements))
  {
    var previous, st := Live(s, key, now), Next(s, key, o, now);
    if o.tree.Some? { BuildValid(Recorded(o.tree.value.elements)); }
    RetainedSound(previous, st.revision, st.records, o.tree, now);
  }

  lemma ObservedKeepsInv(s: Store, key: Key, o: Observation, now: int)
    requires Inv(s) && 0 < s.next
    requires key in s.states ==> s.states[key].updatedAt <= now
    ensures Inv(Observed(s, key, o, now)) && s.next <= Observed(s, key, o, now).next
  {
    NextSound(s, key, o, now);
  }

  // ---------- runs ----------

  /** `Forget`: a cleared device, or those no longer connected. */
  datatype Event = Observe(key: Key, observation: Observation, now: int) | Forget(keys: set<Key>)

  function Apply(s: Store, e: Event): Store {
    match e
    case Observe(key, o, now) => Observed(s, key, o, now)
    case Forget(keys) => Forgotten(s, keys)
  }

  function After(s: Store, es: seq<Event>): Store {
    if es == [] then s else Apply(After(s, es[..|es| - 1]), es[|es| - 1])
  }

  /** The clock never runs backwards, and starts no earlier than `from`. */
  ghost predicate Timely(es: seq<Event>, from: int) {
    && (forall i :: 0 <= i < |es| && es[i].Observe? ==> from <= es[i].now)
    && forall i, j :: 0 <= i < j < |es| && es[i].Observe? && es[j].Observe? ==> es[i].now <= es[j].now
  }

  ghost predicate Reachable(s: Store, from: int) {
    Inv(s) && 0 < s.next && forall key :: key in s.states ==> s.states[key].updatedAt <= from
  }

  function Latest(es: seq<Event>, from: int): int {
    if es == [] then from
    else if es[|es| - 1].Observe? then es[|es| - 1].now else Latest(es[..|es| - 1], from)
  }

  lemma {:induction false} LatestIsLast(es: seq<Event>, from: int)
    requires Timely(es, from)
    ensures from <= Latest(es, from)
    ensures forall i :: 0 <= i < |es| && es[i].Observe? ==> es[i].now <= Latest(es, from)
    ensures Latest(es, from) == from || exists i :: 0 <= i < |es| && es[i].Observe? && es[i].now == Latest(es, from)
  {
    if es != [] && es[|es| - 1].Forget? {
      var front := es[..|es| - 1];
      LatestIsLast(front, from);
      assert forall i :: 0 <= i < |front| ==> front[i] == es[i];
    }
  }

  lemma {:induction false} AfterReachable(s: Store, es: seq<Event>, from: int)
    requires Reachable(s, from) && Timely(es, from)
    ensures Reachable(After(s, es), Latest(es, from))
    ensures s.next <= After(s, es).next
  {
    if es != [] {
      var n := |es| - 1;
      TimelyPrefix(es, from);
      AfterReachable(s, es[..n], from);
      StepReachable(After(s, es[..n]), es[n], Latest(es[..n], from));
    }
  }

  lemma TimelyPrefix(es: seq<Event>, from: int)
    requires es != [] && Timely(es, from)
    ensures Timely(es[..|es| - 1], from)
    ensures es[|es| - 1].Observe? ==> Latest(es[..|es| - 1], from) <= es[|es| - 1].now
  {
    var front := es[..|es| - 1];
    assert forall i :: 0 <= i < |front| ==> front[i] == es[i];
    LatestIsLast(front, from);
  }

  lemma StepReachable(s: Store, e: Event, clock: int)
    requires Reachable(s, clock) && (e.Observe? ==> clock <= e.now)
    ensures Reachable(Apply(s, e), if e.Observe? then e.now else clock)
    ensures s.next <= Apply(s, e).next
  {
    if e.Observe? { ObservedKeepsInv(s, e.key, e.observation, e.now); }
  }

  // ---------- equal revisions ----------

  /** Seen from an observation of `key` at time `at` signed `sig`: nothing but equally signed
      observations, each within ten minutes of the one before, and no clear. */
  ghost predicate Steady(es: seq<Event>, key: Key, sig: Signature, at: int) {
    es == []
    || (var e, front := es[|es| - 1], es[..|es| - 1];
        && Steady(front, key, sig, at)
        && (e.Forget? ==> key !in e.keys)
        && (e.Observe? && e.key == key ==>
              Signed(e.observation) == Some(sig) && e.now - LastSeen(front, key, at) <= EXPIRY))
  }

  function LastSeen(es: seq<Event>, key: Key, at: int): int {
    if es == [] then at
    else
      var e := es[|es| - 1];
      if e.Observe? && e.key == key then e.now else LastSeen(es[..|es| - 1], key, at)
  }

  /** The device still shows revision `r` with a signature. */
  ghost predicate Holds(s: Store, key: Key, r: nat) {
    key in s.states && s.states[key].revision == r && s.states[key].signature.Some?
  }

  lemma {:induction false} HoldsExactly(s: Store, es: seq<Event>, key: Key, r: nat, sig: Signature)
    requires Holds(s, key, r) && s.states[key].signature == Some(sig) && r < s.next
    ensures Holds(After(s, es), key, r) <==> Steady(es, key, sig, s.states[key].updatedAt)
    ensures r < After(s, es).next
    ensures Holds(After(s, es), key, r) ==>
              var st := After(s, es).states[key];
              st.signature == Some(sig) && st.updatedAt == LastSeen(es, key, s.states[key].updatedAt)
  {
    if es != [] {
      var n := |es| - 1;
      HoldsExactly(s, es[..n], key, r, sig);
    }
  }

  lemma {:induction false} LostForGood(s: Store, es: seq<Event>, key: Key, r: nat)
    requires !Holds(s, key, r) && r < s.next
    ensures !Holds(After(s, es), key, r) && r < After(s, es).next
  {
    if es != [] {
      LostForGood(s, es[..|es| - 1], key, r);
    }
  }

  lemma HoldsAtEnd(s: Store, between: seq<Event>, last: Event, key: Key, r: nat, sig: Signature)
    requires key in s.states && s.states[key].revision == r < s.next
    requires last.Observe? && last.key == key && Signed(last.observation) == Some(sig)
    ensures Holds(After(s, between + [last]), key, r)
        <==> s.states[key].signature == Some(sig) && Steady(between + [last], key, sig, s.states[key].updatedAt)
  {
    if Holds(s, key, r) {
      var mine := s.states[key].signature.value;
      HoldsExactly(s, between + [last], key, r, mine);
    } else {
      LostForGood(s, between + [last], key, r);
    }
  }

  /** Two observations of a device, the later one signed, have the same revision exactly when
      the first was signed alike and everything between was: any change, failed observation,
      expiry or clear in between gives another revision, even if the screen changed back. */
  lemma SameRevisionExactly(s: Store, first: Event, between: seq<Event>, last: Event, sig: Signature)
    requires Inv(s) && 0 < s.next
    requires first.Observe? && last.Observe? && first.key == last.key && Signed(last.observation) == Some(sig)
    ensures Revision(After(Apply(s, first), between), last.key, last.observation, last.now)
         == Revision(s, first.key, first.observation, first.now)
      <==> Signed(first.observation) == Some(sig) && Steady(between + [last], first.key, sig, first.now)
  {
    var r := Revision(s, first.key, first.observation, first.now);
    HoldsAtEnd(Apply(s, first), between, last, first.key, r, sig);
  }

  /** A valid tree that keeps its device's revision has nothing added, removed or changed. */
  lemma SameRevisionNoDelta(s: Store, key: Key, o: Observation, now: int)
    requires Inv(s) && o.tree.Some? && o.override.None?
    requires Live(s, key, now).Some? && Revision(s, key, o, now) == s.states[key].revision
    ensures var m := Reported(s, key, o, now);
      m.summary.Some? && m.summary.value.added == m.summary.value.removed == m.summary.value.mutated == 0
  {
    var st, tree := s.states[key], o.tree.value;
    var es :| Sigs(es) == st.signature.value.elements && st.records == Build(Recorded(es));
    SigsPrefix(es, tree.elements);
    SameSigs(Recorded(es), Recorded(tree.elements));
    BuildValid(Recorded(es));
    BuildValid(Recorded(tree.elements));
    SameSignaturesSameSummary(st.records, Build(Recorded(tree.elements)));
  }

  lemma SigsPrefix(a: seq<Elem>, b: seq<Elem>)
    requires Sigs(a) == Sigs(b)
    ensures Sigs(Recorded(a)) == Sigs(Recorded(b))
  {
    assert |a| == |Sigs(a)| == |Sigs(b)| == |b|;
    assert forall i :: 0 <= i < |a| ==> SigOf(a[i]) == Sigs(a)[i] == Sigs(b)[i] == SigOf(b[i]);
  }

  // ---------- where a baseline comes from ----------

  predicate HasBaseline(s: Store, key: Key, revision: nat, now: int) {
    key in s.states && Fresh(s.states[key].history, revision, now) && now - s.states[key].updatedAt <= EXPIRY
  }

  /** `first`, an observation of `key`, was given `revision`; `rest` is what came after it. */
  ghost predicate Assigned(es: seq<Event>, front: seq<Event>, first: Event, rest: seq<Event>, key: Key, revision: nat) {
    && es == front + [first] + rest
    && first.Observe?
    && first.key == key
    && Revision(After(FRESH, front), key, first.observation, first.now) == revision
  }

  /** ... and it was a valid capture. */
  ghost predicate Given(es: seq<Event>, front: seq<Event>, first: Event, rest: seq<Event>, key: Key, revision: nat) {
    Assigned(es, front, first, rest, key, revision) && first.observation.tree.Some?
  }

  /** ... and the number was a new one. */
  ghost predicate Minted(es: seq<Event>, front: seq<Event>, first: Event, rest: seq<Event>, key: Key, revision: nat) {
    Assigned(es, front, first, rest, key, revision) && After(FRESH, front).next == revision
  }

  predicate CapturedIn(s: Store, key: Key, r: nat) { key in s.states && r in s.states[key].history.captures }

  lemma CapturedNowOrBefore(s: Store, e: Event, key: Key, r: nat)
    requires CapturedIn(Apply(s, e), key, r)
    ensures || CapturedIn(s, key, r)
            || (e.Observe? && e.key == key && e.observation.tree.Some? && r == Revision(s, key, e.observation, e.now))
  {
  }

  lemma AssignedLater(es: seq<Event>, e: Event, front: seq<Event>, first: Event, rest: seq<Event>, key: Key, r: nat)
    requires Assigned(es, front, first, rest, key, r)
    ensures Assigned(es + [e], front, first, rest + [e], key, r)
  {
  }

  lemma AssignedNow(es: seq<Event>, e: Event, key: Key)
    requires e.Observe? && e.key == key
    ensures Assigned(es + [e], es, e, [], key, Revision(After(FRESH, es), key, e.observation, e.now))
  {
  }

  /** Every retained revision was given to a valid capture of its device. */
  lemma {:induction false} BaselineHasSource(es: seq<Event>, key: Key, r: nat)
    returns (front: seq<Event>, first: Event, rest: seq<Event>)
    requires CapturedIn(After(FRESH, es), key, r)
    ensures Given(es, front, first, rest, key, r)
  {
    var n := |es| - 1;
    assert es == es[..n] + [es[n]];
    CapturedNowOrBefore(After(FRESH, es[..n]), es[n], key, r);
    if CapturedIn(After(FRESH, es[..n]), key, r) {
      front, first, rest := BaselineHasSource(es[..n], key, r);
      AssignedLater(es[..n], es[n], front, first, rest, key, r);
      rest := rest + [es[n]];
    } else {
      front, first, rest := es[..n], es[n], [];
      AssignedNow(es[..n], es[n], key);
    }
  }

  /** The revision a device shows was minted for an observation of that device. */
  lemma {:induction false} ShownWasMinted(es: seq<Event>, key: Key)
    returns (front: seq<Event>, first: Event, rest: seq<Event>)
    requires key in After(FRESH, es).states
    ensures Minted(es, front, first, rest, key, After(FRESH, es).states[key].revision)
  {
    var n := |es| - 1;
    var s, e := After(FRESH, es[..n]), es[n];
    assert es == es[..n] + [e];
    if e.Observe? && e.key == key && Revision(s, key, e.observation, e.now) == s.next {
      front, first, rest := es[..n], e, [];
      AssignedNow(es[..n], e, key);
    } else {
      front, first, rest := ShownWasMinted(es[..n], key);
      AssignedLater(es[..n], e, front, first, rest, key, s.states[key].revision);
      rest := rest + [e];
    }
  }

  /** Every retained revision was minted for its device. */
  lemma BaselineWasMinted(es: seq<Event>, key: Key, r: nat)
    returns (front: seq<Event>, first: Event, rest: seq<Event>)
    requires CapturedIn(After(FRESH, es), key, r)
    ensures Minted(es, front, first, rest, key, r)
  {
    var before, given, later := BaselineHasSource(es, key, r);
    ShownAfter(before, given);
    front, first, rest := ShownWasMinted(before + [given], key);
    MintedFurther(before + [given], later, front, first, rest, key, r);
    rest := rest + later;
  }

  lemma ShownAfter(es: seq<Event>, e: Event)
    requires e.Observe?
    ensures e.key in After(FRESH, es + [e]).states
    ensures After(FRESH, es + [e]).states[e.key].revision == Revision(After(FRESH, es), e.key, e.observation, e.now)
  {
    assert (es + [e])[..|es|] == es;
  }

  lemma MintedFurther(es: seq<Event>, later: seq<Event>, front: seq<Event>, first: Event, rest: seq<Event>,
                      key: Key, r: nat)
    requires Minted(es, front, first, rest, key, r)
    ensures Minted(es + later, front, first, rest + later, key, r)
  {
    assert front + [first] + rest + later == front + [first] + (rest + later);
  }

  lemma {:induction false} NextGrows(s: Store, front: seq<Event>, rest: seq<Event>)
    ensures After(s, front).next <= After(s, front + rest).next
  {
    if rest == [] {
      assert front + rest == front;
    } else {
      var n := |rest| - 1;
      NextGrows(s, front, rest[..n]);
      assert (front + rest)[..|front + rest| - 1] == front + rest[..n];
    }
  }

  lemma MintedBefore(es: seq<Event>, a: seq<Event>, x: Event, ra: seq<Event>, b: seq<Event>, y: Event, rb: seq<Event>,
                     key: Key, r: nat)
    requires Minted(es, a, x, ra, key, r) && Minted(es, b, y, rb, key, r)
    ensures |b| <= |a|
  {
    if |a| < |b| {
      assert a + [x] == es[..|a| + 1] && b == es[..|b|];
      assert b == (a + [x]) + es[|a| + 1..|b|];
      assert (a + [x])[..|a|] == a;
      NextGrows(FRESH, a + [x], es[|a| + 1..|b|]);
    }
  }

  /** No revision is minted twice. */
  lemma MintedOnce(es: seq<Event>, a: seq<Event>, x: Event, ra: seq<Event>, b: seq<Event>, y: Event, rb: seq<Event>,
                   key: Key, r: nat)
    requires Minted(es, a, x, ra, key, r) && Minted(es, b, y, rb, key, r)
    ensures a == b && x == y && ra == rb
  {
    MintedBefore(es, a, x, ra, b, y, rb, key, r);
    MintedBefore(es, b, y, rb, a, x, ra, key, r);
    assert a == es[..|a|] && b == es[..|b|] && x == es[|a|] && y == es[|b|];
    assert ra == es[|a| + 1..] && rb == es[|b| + 1..];
  }

  // ---------- the store ----------

  function StateDelta(s: Store, key: Key, base: nat, current: nat, now: int): Option<Delta>
    requires Inv(s)
  {
    if !HasBaseline(s, key, base, now) || current !in s.states[key].history.captures then None
    else
      var captures := s.states[key].history.captures;
      var from, to := captures[base], captures[current];
      assert D.Valid(from.records) && D.Valid(to.records);
      Some(Compared(from.records, to.records, from.over, to.over))
  }

  class Snapshots {
    var nextRevision: nat
    var states: map<Key, State>

    function View(): Store reads this { Store(nextRevision, states) }

    constructor ()
      ensures View() == FRESH
    {
      nextRevision := 1;
      states := map[];
    }

    static lemma OneFiltered(order: seq<nat>, i: nat, h: History, now: int)
      requires i < |order|
      ensures Filtered(order[..i + 1], h, now)
           == Filtered(order[..i], h, now) + if Fresh(h, order[i], now) then [order[i]] else []
    {
      assert order[..i + 1][..i] == order[..i];
    }

    static lemma OldestOutside(order: seq<nat>)
      requires |order| > KEPT
      ensures Newest(order[1..]) == Newest(order)
    {
    }

    static method RetainHistory(previous: Option<State>, revision: nat, records: Records, tree: Option<Tree>, now: int)
      returns (history: History)
      ensures history == Retained(previous, revision, records, tree, now)
    {
      history := if previous.Some? then previous.value.history else EMPTY;
      if tree.Some? { history := Add(history, revision, records, now, Over(tree.value)); }
      var order: seq<nat> := [];
      for i := 0 to |history.order|
        invariant order == Filtered(history.order[..i], history, now)
      {
        OneFiltered(history.order, i, history, now);
        if Fresh(history, history.order[i], now) { order := order + [history.order[i]]; }
      }
      assert history.order[..|history.order|] == history.order;
      ghost var unexpired := order;
      while |order| > KEPT
        invariant Newest(order) == Newest(unexpired)
      {
        OldestOutside(order);
        order := order[1..];
      }
      history := Restricted(history, order);
    }

    static method SnapshotRecords(tree: Option<Tree>, previous: Option<State>) returns (records: Records)
      requires previous.Some? ==> D.Valid(previous.value.records)
      ensures records == RecordsOf(tree, previous) && D.Valid(records)
    {
      records := if previous.Some? then previous.value.records else NONE;
      if tree.Some? {
        records := BuildRecords(tree.value.elements);
        BuildValid(Recorded(tree.value.elements));
      }
    }

    method Derive(key: Key, o: Observation, now: int) returns (m: Metadata)
      requires Inv(View())
      modifies this
      ensures View() == Observed(old(View()), key, o, now)
      ensures m == Reported(old(View()), key, o, now)
    {
      var signature := Signed(o);
      var previous := Live(View(), key, now);
      if previous.None? { states := states - {key}; }
      var records := SnapshotRecords(o.tree, previous);
      var revision := nextRevision;
      if previous.Some? && (signature == None || previous.value.signature == signature) {
        revision := previous.value.revision;
      } else {
        nextRevision := nextRevision + 1;
      }
      var history := RetainHistory(previous, revision, records, o.tree, now);
      var last := if previous.Some? then Some(previous.value.revision) else None;
      var summary: Option<Summary> := None;
      if o.tree.Some? && previous.Some? {
        var counts := Summarise(previous.value.records, records);
        summary := Some(counts);
      }
      states := states[key := State(revision, signature, records, history, last, now)];
      m := Metadata(revision, summary);
    }

    /** `clearDeviceSnapshots` for one key, `retainConnectedDeviceSnapshots` for all others of
        a platform. */
    method Forget(keys: set<Key>)
      modifies this
      ensures View() == Forgotten(old(View()), keys)
    {
      states := states - keys;
    }

    method GetStateDelta(key: Key, base: nat, current: nat, now: int) returns (d: Option<Delta>)
      requires Inv(View())
      ensures d == StateDelta(View(), key, base, current, now)
    {
      if key !in states { return None; }
      var st := states[key];
      var at := if base in st.history.captures then st.history.captures[base].at else 0;
      if now - at > EXPIRY || now - st.updatedAt > EXPIRY { return None; }
      if base !in st.history.captures || current !in st.history.captures { return None; }
      var from, to := st.history.captures[base], st.history.captures[current];
      var delta := Compare(from.records, to.records, from.over, to.over);
      d := Some(delta);
    }

    method GetLatestStateDelta(key: Key, now: int) returns (d: Option<Delta>)
      requires Inv(View())
      ensures d == if key in states && states[key].previous.Some?
                   then StateDelta(View(), key, states[key].previous.value, states[key].revision, now) else None
    {
      if key !in states || states[key].previous == None { return None; }
      d := GetStateDelta(key, states[key].previous.value, states[key].revision, now);
    }
  }
}
