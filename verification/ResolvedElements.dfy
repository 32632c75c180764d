/** The bounded store of resolved elements, against the history of what was remembered.  The
    store keeps the ids in the order of their last use and evicts from the front; the history is
    the plain list of everything that was ever remembered, from which the contents of the store
    are defined a second time. */
module ResolvedElements {
  import opened Collections

  datatype Entry<C> = Entry(id: string, context: C)

  /** Ids in insertion order, and the context of each. */
  datatype Store<C> = Store(order: seq<string>, elements: map<string, C>)

  function Empty<C>(): Store<C> { Store([], map[]) }

  function Without(order: seq<string>, id: string): seq<string> {
    if order == [] then []
    else (if order[0] == id then [] else [order[0]]) + Without(order[1..], id)
  }

  /** The eviction loop; it stops early at an empty id. */
  function Trim<C>(s: Store<C>, maximum: nat): Store<C>
    decreases |s.order|
  {
    if |s.order| <= maximum || s.order[0] == "" then s
    else Trim(Store(s.order[1..], s.elements - {s.order[0]}), maximum)
  }

  function Remembered<C>(s: Store<C>, id: string, context: C, maximum: nat): Store<C> {
    Trim(Store(Without(s.order, id) + [id], s.elements[id := context]), maximum)
  }

  // ---------- the history ----------

  function After<C>(log: seq<Entry<C>>, maximum: nat): Store<C> {
    if log == [] then Empty()
    else var e := log[|log| - 1]; Remembered(After(log[..|log| - 1], maximum), e.id, e.context, maximum)
  }

  predicate Known<C>(log: seq<Entry<C>>, id: string) {
    log != [] && (log[|log| - 1].id == id || Known(log[..|log| - 1], id))
  }

  /** The ids remembered since `id` was last. */
  function Newer<C>(log: seq<Entry<C>>, id: string): set<string> {
    if log == [] || log[|log| - 1].id == id then {}
    else Newer(log[..|log| - 1], id) + {log[|log| - 1].id}
  }

  function Latest<C>(log: seq<Entry<C>>, id: string): C
    requires Known(log, id)
  {
    if log[|log| - 1].id == id then log[|log| - 1].context else Latest(log[..|log| - 1], id)
  }

  // ---------- what the store holds ----------

  lemma {:induction false} WithoutIs(order: seq<string>, id: string)
    ensures forall x :: x in Without(order, id) <==> x in order && x != id
    ensures Unique(order) ==> Unique(Without(order, id))
  {
    if order != [] {
      WithoutIs(order[1..], id);
      assert order == [order[0]] + order[1..];
      assert Unique(order) ==> order[0] !in order[1..];
    }
  }

  /** Each held id is followed by exactly the ids newer than it. */
  ghost predicate Ranked<C>(order: seq<string>, log: seq<Entry<C>>) {
    forall p :: 0 <= p < |order| ==> Known(log, order[p]) && Elements(order[p + 1..]) == Newer(log, order[p])
  }

  ghost predicate Holds<C>(s: Store<C>, log: seq<Entry<C>>, id: string) {
    && (id in s.order <==> id in s.elements)
    && (id in s.elements ==> Known(log, id) && s.elements[id] == Latest(log, id))
  }

  ghost predicate Faithful<C>(s: Store<C>, log: seq<Entry<C>>) {
    Unique(s.order) && Ranked(s.order, log) && forall id :: Holds(s, log, id)
  }

  ghost predicate NonEmpty<C>(log: seq<Entry<C>>) { forall i :: 0 <= i < |log| ==> log[i].id != "" }

  lemma TailOfRemoved(order: seq<string>, id: string, q: nat)
    requires Unique(order) && order != [] && order[0] == id && q < |Without(order, id)|
    ensures q + 1 < |order| && order[q + 1] == Without(order, id)[q]
    ensures Elements(Without(order, id)[q + 1..]) == Elements(order[q + 2..]) - {id}
  {
    var tail := order[1..];
    assert order == [id] + tail && id !in tail;
    AbsentStays(tail, id);
    assert Without(order, id) == [] + Without(tail, id) == tail;
    assert tail[q + 1..] == order[q + 2..];
    AbsentBehind(tail, id, q + 1);
  }

  lemma AbsentBehind(s: seq<string>, id: string, k: nat)
    requires id !in s && k <= |s|
    ensures Elements(s[k..]) - {id} == Elements(s[k..])
  {
  }

  lemma TailOfKept(order: seq<string>, id: string, q: nat)
    requires order != [] && order[0] != id && q <= |Without(order[1..], id)|
    ensures Without(order, id)[q + 1..] == Without(order[1..], id)[q..]
  {
  }

  lemma {:induction false} TailAfterRemoval(order: seq<string>, id: string, q: nat) returns (p: nat)
    requires Unique(order) && q < |Without(order, id)|
    ensures p < |order|
    ensures order[p] == Without(order, id)[q]
    ensures order[p] != id
    ensures Elements(Without(order, id)[q + 1..]) == Elements(order[p + 1..]) - {id}
  {
    if order[0] == id {
      p := q + 1;
      TailOfRemoved(order, id, q);
    } else if q == 0 {
      p := 0;
      WithoutIs(order[1..], id);
      TailOfKept(order, id, 0);
    } else {
      TailOfKept(order, id, q);
      var p' := TailAfterRemoval(order[1..], id, q - 1);
      p := p' + 1;
      assert order[p + 1..] == order[1..][p' + 1..];
    }
  }

  lemma {:induction false} AbsentStays(order: seq<string>, id: string)
    requires id !in order
    ensures Without(order, id) == order
  {
    if order != [] { AbsentStays(order[1..], id); }
  }

  lemma KnownGrows<C>(log: seq<Entry<C>>, e: Entry<C>, id: string)
    ensures Known(log + [e], id) <==> Known(log, id) || id == e.id
    ensures Newer(log + [e], id) == if id == e.id then {} else Newer(log, id) + {e.id}
    ensures Known(log + [e], id) ==> Latest(log + [e], id) == if id == e.id then e.context else Latest(log, id)
  {
  }

  lemma PutRanked<C>(order: seq<string>, log: seq<Entry<C>>, e: Entry<C>)
    requires Unique(order) && Ranked(order, log)
    ensures Ranked(Without(order, e.id) + [e.id], log + [e])
  {
    var order' := Without(order, e.id) + [e.id];
    forall q | 0 <= q < |order'|
      ensures Known(log + [e], order'[q]) && Elements(order'[q + 1..]) == Newer(log + [e], order'[q])
    {
      KnownGrows(log, e, order'[q]);
      if q < |order'| - 1 {
        var p := TailAfterRemoval(order, e.id, q);
        assert order'[q + 1..] == Without(order, e.id)[q + 1..] + [e.id];
        assert Elements(order'[q + 1..]) == Elements(Without(order, e.id)[q + 1..]) + {e.id};
      }
    }
  }

  lemma PutFaithful<C>(s: Store<C>, log: seq<Entry<C>>, e: Entry<C>)
    requires Faithful(s, log)
    ensures Faithful(Store(Without(s.order, e.id) + [e.id], s.elements[e.id := e.context]), log + [e])
  {
    var s' := Store(Without(s.order, e.id) + [e.id], s.elements[e.id := e.context]);
    WithoutIs(s.order, e.id);
    PutRanked(s.order, log, e);
    assert e.id !in Without(s.order, e.id);
    forall id ensures Holds(s', log + [e], id) {
      KnownGrows(log, e, id);
      assert Holds(s, log, id);
    }
  }

  lemma OldestHasNewer<C>(s: Store<C>, log: seq<Entry<C>>, maximum: nat)
    requires Faithful(s, log) && |s.order| > maximum
    ensures |Newer(log, s.order[0])| >= maximum
  {
    UniqueCount(s.order[1..]);
    assert Elements(s.order[0 + 1..]) == Newer(log, s.order[0]);
  }

  lemma {:induction false} TrimFaithful<C>(s: Store<C>, log: seq<Entry<C>>, maximum: nat)
    requires Faithful(s, log)
    ensures Faithful(Trim(s, maximum), log)
    ensures forall id :: id in s.order && id !in Trim(s, maximum).order ==> |Newer(log, id)| >= maximum
    decreases |s.order|
  {
    if |s.order| > maximum && s.order[0] != "" {
      DropFaithful(s, log);
      OldestHasNewer(s, log, maximum);
      TrimFaithful(Store(s.order[1..], s.elements - {s.order[0]}), log, maximum);
      HeadOrTail(s.order);
    }
  }

  lemma HeadOrTail(s: seq<string>)
    requires s != []
    ensures forall x :: x in s <==> x == s[0] || x in s[1..]
  {
  }

  lemma DropFaithful<C>(s: Store<C>, log: seq<Entry<C>>)
    requires Faithful(s, log) && s.order != []
    ensures Faithful(Store(s.order[1..], s.elements - {s.order[0]}), log)
  {
    var s' := Store(s.order[1..], s.elements - {s.order[0]});
    assert s.order == [s.order[0]] + s.order[1..];
    forall p | 0 <= p < |s'.order| ensures Elements(s'.order[p + 1..]) == Newer(log, s'.order[p]) {
      assert s'.order[p + 1..] == s.order[p + 2..];
    }
    assert s.order[0] !in s.order[1..];
    forall id ensures Holds(s', log, id) { assert Holds(s, log, id); }
  }

  /** Whatever was remembered: each held id has its latest context and is preceded by older
      ones only, and each id no longer held has at least `maximum` newer ones. */
  lemma {:induction false} AlwaysFaithful<C>(log: seq<Entry<C>>, maximum: nat)
    ensures Faithful(After(log, maximum), log)
    ensures forall id :: Known(log, id) && id !in After(log, maximum).order ==> |Newer(log, id)| >= maximum
  {
    if log != [] {
      var n := |log| - 1;
      var front, e := log[..n], log[n];
      var s := After(front, maximum);
      assert log == front + [e];
      AlwaysFaithful(front, maximum);
      PutFaithful(s, front, e);
      var put := Store(Without(s.order, e.id) + [e.id], s.elements[e.id := e.context]);
      TrimFaithful(put, log, maximum);
      WithoutIs(s.order, e.id);
      forall id | Known(log, id) && id !in After(log, maximum).order ensures |Newer(log, id)| >= maximum {
        KnownGrows(front, e, id);
        if id !in put.order { MoreNewer(front, e, id); }
      }
    }
  }

  lemma MoreNewer<C>(log: seq<Entry<C>>, e: Entry<C>, id: string)
    requires id != e.id
    ensures |Newer(log + [e], id)| >= |Newer(log, id)|
  {
    KnownGrows(log, e, id);
    assert Newer(log, id) + {e.id} == Newer(log, id) + ({e.id} - Newer(log, id));
  }

  // ---------- the bound ----------

  lemma {:induction false} TrimBoundedExactly<C>(s: Store<C>, maximum: nat)
    ensures |Trim(s, maximum).order| <= maximum
       <==> |s.order| <= maximum || "" !in s.order[..|s.order| - maximum]
    decreases |s.order|
  {
    if |s.order| > maximum {
      var rest := s.order[1..];
      assert s.order[..|s.order| - maximum] == [s.order[0]] + rest[..|rest| - maximum];
      if s.order[0] != "" { TrimBoundedExactly(Store(rest, s.elements - {s.order[0]}), maximum); }
    }
  }

  /** One call keeps the store within its maximum exactly when the empty id is not among the
      entries that have to go. */
  lemma RememberBoundedExactly<C>(s: Store<C>, id: string, context: C, maximum: nat)
    ensures var put := Without(s.order, id) + [id];
      |Remembered(s, id, context, maximum).order| <= maximum
      <==> |put| <= maximum || "" !in put[..|put| - maximum]
  {
    TrimBoundedExactly(Store(Without(s.order, id) + [id], s.elements[id := context]), maximum);
  }

  lemma {:induction false} NonEmptyBounded<C>(log: seq<Entry<C>>, maximum: nat)
    requires NonEmpty(log)
    ensures |After(log, maximum).order| <= maximum
  {
    if log != [] {
      var n := |log| - 1;
      var s, e := After(log[..n], maximum), log[n];
      var put := Store(Without(s.order, e.id) + [e.id], s.elements[e.id := e.context]);
      AlwaysFaithful(log[..n], maximum);
      PutFaithful(s, log[..n], e);
      assert log[..n] + [e] == log;
      forall i | 0 <= i < |put.order| ensures put.order[i] != "" { KnownNonEmpty(log, put.order[i]); }
      TrimBoundedExactly(put, maximum);
    }
  }

  lemma {:induction false} KnownNonEmpty<C>(log: seq<Entry<C>>, id: string)
    requires NonEmpty(log) && Known(log, id)
    ensures id != ""
  {
    if log[|log| - 1].id != id { KnownNonEmpty(log[..|log| - 1], id); }
  }

  /** For non-empty ids the store is the most recent `maximum` distinct ids with their latest
      contexts: an id is held exactly when fewer than `maximum` others are newer. */
  lemma MostRecentExactly<C>(log: seq<Entry<C>>, maximum: nat, id: string)
    requires NonEmpty(log)
    ensures var s := After(log, maximum);
      && |s.order| <= maximum
      && (id in s.elements <==> Known(log, id) && |Newer(log, id)| < maximum)
      && (id in s.elements ==> s.elements[id] == Latest(log, id))
  {
    var s := After(log, maximum);
    AlwaysFaithful(log, maximum);
    NonEmptyBounded(log, maximum);
    assert Holds(s, log, id);
    if id in s.order {
      var p :| 0 <= p < |s.order| && s.order[p] == id;
      UniqueCount(s.order[p + 1..]);
    }
  }

  /** The empty id, once oldest, is never evicted and keeps everything after it. */
  lemma EmptyIdBlocksEviction()
    ensures After([Entry("", 1), Entry("a", 2), Entry("b", 3)], 1).order == ["", "a", "b"]
  {
    var log := [Entry("", 1), Entry("a", 2), Entry("b", 3)];
    assert log[..2][..1] == [Entry("", 1)] && log[..1][..0] == [];
    assert log[..2] == [Entry("", 1), Entry("a", 2)] && log[..2][..1] == log[..1];
    assert Without([], "") + [""] == [""];
    assert After(log[..1], 1).order == [""];
    assert Without([""], "a") == [""] + Without([], "a");
    assert After(log[..2], 1).order == ["", "a"];
    assert ["", "a"][1..] == ["a"] && ["a"][1..] == [];
    assert Without(["", "a"], "b") == ["", "a"];
  }

  // ---------- the store object ----------

  class ElementStore<C> {
    const maximum: nat
    var order: seq<string>
    var elements: map<string, C>

    function View(): Store<C> reads this { Store(order, elements) }

    constructor (maximum: nat)
      ensures View() == Empty() && this.maximum == maximum
    {
      this.maximum := maximum;
      order := [];
      elements := map[];
    }

    method Clear()
      modifies this
      ensures View() == Empty()
    {
      order := [];
      elements := map[];
    }

    method Remember(id: string, context: C)
      modifies this
      ensures View() == Remembered(old(View()), id, context, maximum)
    {
      order := Without(order, id) + [id];
      elements := elements[id := context];
      ghost var put := View();
      while |order| > maximum
        invariant Trim(View(), maximum) == Trim(put, maximum)
        decreases |order|
      {
        var oldest := order[0];
        if oldest == "" { break; }
        order := order[1..];
        elements := elements - {oldest};
      }
    }
  }
}
