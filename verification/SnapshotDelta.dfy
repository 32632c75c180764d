/** Element records of a captured UI tree and the differences between two captures. */
module SnapshotDelta {
  import opened Collections
  import opened Wrappers

  const ELEMENTS: nat := 500
  const CHANGES: nat := 200

  /** `fields`: text, description, resource id, type and bounds.  `rest`: the other fields of
      an element's signature.  `raw`: what the signature leaves out. */
  datatype Elem = Elem(stable: string, fields: int, rest: int, raw: int)

  datatype Sig = Sig(stable: string, fields: int, rest: int)

  datatype Identity = Stable(id: string) | Fallback(fields: int, index: nat)

  function SigOf(e: Elem): Sig { Sig(e.stable, e.fields, e.rest) }

  function Identify(e: Elem, index: nat): Identity {
    if e.stable != "" then Stable(e.stable) else Fallback(e.fields, index)
  }

  /** A map that is iterated in insertion order. */
  datatype Records = Records(order: seq<Identity>, elems: map<Identity, Elem>)

  const NONE := Records([], map[])

  function Put(r: Records, k: Identity, e: Elem): Records {
    Records(if k in r.elems then r.order else r.order + [k], r.elems[k := e])
  }

  ghost predicate Valid(r: Records) {
    Unique(r.order) && forall k :: k in r.order <==> k in r.elems
  }

  function Build(es: seq<Elem>): Records {
    if es == [] then NONE
    else var n := |es| - 1; Put(Build(es[..n]), Identify(es[n], n), es[n])
  }

  lemma {:induction false} BuildValid(es: seq<Elem>)
    ensures Valid(Build(es))
  {
    if es != [] {
      var n := |es| - 1;
      BuildValid(es[..n]);
    }
  }

  /** Element `i` is the last one with identity `k`. */
  ghost predicate LastWith(es: seq<Elem>, i: int, k: Identity) {
    && 0 <= i < |es| && Identify(es[i], i) == k
    && forall j :: i < j < |es| ==> Identify(es[j], j) != k
  }

  /** Of several elements with one identity the last is recorded. */
  lemma {:induction false} LastOfIdentity(es: seq<Elem>, k: Identity)
    ensures k in Build(es).elems ==> exists i :: LastWith(es, i, k) && Build(es).elems[k] == es[i]
  {
    if es != [] && k in Build(es).elems {
      var n := |es| - 1;
      var front, e := es[..n], es[n];
      assert es == front + [e];
      if Identify(e, n) == k {
        assert LastWith(es, n, k);
      } else {
        LastOfIdentity(front, k);
        var i :| LastWith(front, i, k) && Build(front).elems[k] == front[i];
      }
    }
  }

  /** An identity is recorded exactly when some element has it. */
  lemma {:induction false} RecordedExactly(es: seq<Elem>, k: Identity)
    ensures k in Build(es).elems <==> exists i :: 0 <= i < |es| && Identify(es[i], i) == k
  {
    if es != [] {
      var n := |es| - 1;
      RecordedExactly(es[..n], k);
      if k in Build(es[..n]).elems {
        var i :| 0 <= i < n && Identify(es[..n][i], i) == k;
        assert Identify(es[i], i) == k;
      } else {
        forall i | 0 <= i < n ensures Identify(es[i], i) != k { assert es[..n][i] == es[i]; }
      }
    }
  }

  function Recorded(es: seq<Elem>): seq<Elem> { if |es| <= ELEMENTS then es else es[..ELEMENTS] }

  method BuildRecords(es: seq<Elem>) returns (r: Records)
    ensures r == Build(Recorded(es))
  {
    r := NONE;
    var n := if |es| < ELEMENTS then |es| else ELEMENTS;
    assert es[..|es|] == es;
    for index := 0 to n
      invariant r == Build(es[..index])
    {
      assert es[..index + 1][..index] == es[..index];
      r := Put(r, Identify(es[index], index), es[index]);
    }
  }

  // ---------- signatures ----------

  function Sigs(es: seq<Elem>): (r: seq<Sig>)
    ensures |r| == |es|
  {
    seq(|es|, i requires 0 <= i < |es| => SigOf(es[i]))
  }

  function SigMap(r: Records): map<Identity, Sig> { map k | k in r.elems :: SigOf(r.elems[k]) }

  lemma PutSameSigs(p: Records, q: Records, k: Identity, x: Elem, y: Elem)
    requires p.order == q.order && SigMap(p) == SigMap(q) && SigOf(x) == SigOf(y)
    ensures Put(p, k, x).order == Put(q, k, y).order
    ensures SigMap(Put(p, k, x)) == SigMap(Put(q, k, y))
  {
    assert p.elems.Keys == SigMap(p).Keys == SigMap(q).Keys == q.elems.Keys;
    assert SigMap(Put(p, k, x)) == SigMap(p)[k := SigOf(x)];
    assert SigMap(Put(q, k, y)) == SigMap(q)[k := SigOf(y)];
  }

  lemma SigsAt(a: seq<Elem>, b: seq<Elem>, n: nat)
    requires Sigs(a) == Sigs(b) && n < |a|
    ensures n < |b|
    ensures SigOf(a[n]) == SigOf(b[n])
    ensures Sigs(a[..n]) == Sigs(b[..n])
  {
    assert |Sigs(a)| == |Sigs(b)|;
    assert forall i :: 0 <= i <= n ==> SigOf(a[i]) == Sigs(a)[i] == Sigs(b)[i] == SigOf(b[i]);
  }

  /** What is recorded of two trees with equal signatures differs in unsigned fields only. */
  lemma {:induction false} SameSigs(a: seq<Elem>, b: seq<Elem>)
    requires Sigs(a) == Sigs(b)
    ensures Build(a).order == Build(b).order
    ensures SigMap(Build(a)) == SigMap(Build(b))
  {
    assert |Sigs(a)| == |Sigs(b)|;
    if a != [] {
      var n := |a| - 1;
      SigsAt(a, b, n);
      SameSigs(a[..n], b[..n]);
      assert Identify(a[n], n) == Identify(b[n], n);
      PutSameSigs(Build(a[..n]), Build(b[..n]), Identify(a[n], n), a[n], b[n]);
    }
  }

  // ---------- differences ----------

  /** The keys of `order` that `m` lacks, in order. */
  function Missing(order: seq<Identity>, m: map<Identity, Elem>): seq<Identity> {
    if order == [] then []
    else Missing(order[..|order| - 1], m) + if order[|order| - 1] in m then [] else [order[|order| - 1]]
  }

  /** The keys whose elements have different signatures in `a` and `b`, in order. */
  function Differing(order: seq<Identity>, a: map<Identity, Elem>, b: map<Identity, Elem>): seq<Identity> {
    if order == [] then []
    else
      var k := order[|order| - 1];
      Differing(order[..|order| - 1], a, b) + if k in a && k in b && SigOf(a[k]) != SigOf(b[k]) then [k] else []
  }

  lemma {:induction false} MissingMembers(order: seq<Identity>, m: map<Identity, Elem>)
    ensures forall k :: k in Missing(order, m) <==> k in order && k !in m
    ensures Unique(order) ==> Unique(Missing(order, m))
  {
    if order != [] {
      var n := |order| - 1;
      MissingMembers(order[..n], m);
      assert order == order[..n] + [order[n]];
      assert Unique(order) ==> order[n] !in order[..n];
    }
  }

  lemma {:induction false} DifferingMembers(order: seq<Identity>, a: map<Identity, Elem>, b: map<Identity, Elem>)
    ensures forall k :: k in Differing(order, a, b) <==> k in order && k in a && k in b && SigOf(a[k]) != SigOf(b[k])
  {
    if order != [] {
      var n := |order| - 1;
      DifferingMembers(order[..n], a, b);
      assert order == order[..n] + [order[n]];
    }
  }

  datatype Summary = Summary(added: nat, removed: nat, mutated: nat, total: nat)

  function Summarised(previous: Records, current: Records): Summary {
    Summary(|Missing(current.order, previous.elems)|, |Missing(previous.order, current.elems)|,
            |Differing(current.order, previous.elems, current.elems)|, |current.order|)
  }

  method Summarise(previous: Records, current: Records) returns (s: Summary)
    requires Valid(previous) && Valid(current)
    ensures s == Summarised(previous, current)
  {
    var added, removed, mutated := 0, 0, 0;
    for i := 0 to |current.order|
      invariant added == |Missing(current.order[..i], previous.elems)|
      invariant mutated == |Differing(current.order[..i], previous.elems, current.elems)|
    {
      var k := current.order[i];
      assert current.order[..i + 1][..i] == current.order[..i];
      if k !in previous.elems {
        added := added + 1;
      } else if SigOf(previous.elems[k]) != SigOf(current.elems[k]) {
        mutated := mutated + 1;
      }
    }
    for i := 0 to |previous.order|
      invariant removed == |Missing(previous.order[..i], current.elems)|
    {
      assert previous.order[..i + 1][..i] == previous.order[..i];
      if previous.order[i] !in current.elems { removed := removed + 1; }
    }
    assert current.order[..|current.order|] == current.order;
    assert previous.order[..|previous.order|] == previous.order;
    s := Summary(added, removed, mutated, |current.order|);
  }

  lemma MissingCount(a: Records, b: Records)
    requires Valid(a) && Valid(b)
    ensures |Missing(a.order, b.elems)| == |Elements(a.order) - Elements(b.order)|
  {
    MissingMembers(a.order, b.elems);
    UniqueCount(Missing(a.order, b.elems));
    assert Elements(Missing(a.order, b.elems)) == Elements(a.order) - Elements(b.order);
  }

  /** current = previous - removed + added. */
  lemma CountsBalance(previous: Records, current: Records)
    requires Valid(previous) && Valid(current)
    ensures var s := Summarised(previous, current);
      s.total == |previous.order| - s.removed + s.added && s.removed <= |previous.order|
  {
    MissingCount(previous, current);
    MissingCount(current, previous);
    UniqueCount(previous.order);
    UniqueCount(current.order);
    var a, b := Elements(previous.order), Elements(current.order);
    assert a * b == b * a;
  }

  /** Records with the same signatures differ in nothing that is counted. */
  lemma SameSignaturesSameSummary(previous: Records, current: Records)
    requires Valid(previous) && Valid(current) && SigMap(previous) == SigMap(current)
    ensures var s := Summarised(previous, current); s.added == s.removed == s.mutated == 0
  {
    MissingMembers(previous.order, current.elems);
    MissingMembers(current.order, previous.elems);
    DifferingMembers(current.order, previous.elems, current.elems);
    assert previous.elems.Keys == SigMap(previous).Keys == SigMap(current).Keys == current.elems.Keys;
    forall k | k in previous.elems ensures SigOf(previous.elems[k]) == SigOf(current.elems[k]) {
      assert SigMap(previous)[k] == SigMap(current)[k];
    }
    NoMembers(Missing(previous.order, current.elems));
    NoMembers(Missing(current.order, previous.elems));
    NoMembers(Differing(current.order, previous.elems, current.elems));
  }

  lemma NoMembers<T>(s: seq<T>)
    ensures (forall x :: x !in s) ==> s == []
  {
    if s != [] { assert s[0] in s; }
  }

  // ---------- the delta between two retained revisions ----------

  /** A reported element.  The report itself leaves the identity out; a removed element comes
      with its position in the base instead. */
  datatype Entry = Entry(identity: Identity, element: Elem)
  datatype Removal = Removal(entry: Entry, index: nat)

  datatype Delta = Delta(added: seq<Entry>, changed: seq<Entry>, removed: seq<Removal>,
                         truncated: bool, omitted: Option<nat>)

  function EntryOf(r: Records, i: nat): Entry
    requires i < |r.order| && r.order[i] in r.elems
  {
    Entry(r.order[i], r.elems[r.order[i]])
  }

  predicate Keyed(r: Records) { forall i :: 0 <= i < |r.order| ==> r.order[i] in r.elems }

  function Additions(base: Records, current: Records, n: nat): seq<Entry>
    requires n <= |current.order| && Keyed(current)
  {
    if n == 0 then []
    else Additions(base, current, n - 1) + if current.order[n - 1] in base.elems then [] else [EntryOf(current, n - 1)]
  }

  predicate Alters(base: Records, current: Records, k: Identity) {
    k in base.elems && k in current.elems && SigOf(base.elems[k]) != SigOf(current.elems[k])
  }

  function Changes(base: Records, current: Records, n: nat): seq<Entry>
    requires n <= |current.order| && Keyed(current)
  {
    if n == 0 then []
    else
      Changes(base, current, n - 1)
      + if Alters(base, current, current.order[n - 1]) then [EntryOf(current, n - 1)] else []
  }

  function Removals(base: Records, current: Records, n: nat): seq<Removal>
    requires n <= |base.order| && Keyed(base)
  {
    if n == 0 then []
    else
      var gone := base.order[n - 1] !in current.elems;
      Removals(base, current, n - 1) + if gone then [Removal(EntryOf(base, n - 1), n - 1)] else []
  }

  function Take<T>(s: seq<T>, n: int): seq<T> { if n <= 0 then [] else if |s| <= n then s else s[..n] }

  function Max(a: int, b: int): int { if a < b then b else a }

  /** `over`: how many elements of either side were beyond those recorded. */
  function Cut(added: seq<Entry>, changed: seq<Entry>, removed: seq<Removal>, overBase: nat, overCurrent: nat): Delta {
    var all := |added| + |changed| + |removed|;
    var truncated := all > CHANGES || overBase > 0 || overCurrent > 0;
    Delta(Take(added, CHANGES), Take(changed, CHANGES - |added|), Take(removed, CHANGES - |added| - |changed|),
      truncated,
          if truncated then Some(Max(all - CHANGES, Max(overBase, overCurrent))) else None)
  }

  function Compared(base: Records, current: Records, overBase: nat, overCurrent: nat): Delta
    requires Keyed(base) && Keyed(current)
  {
    Cut(Additions(base, current, |current.order|), Changes(base, current, |current.order|),
        Removals(base, current, |base.order|), overBase, overCurrent)
  }

  method Compare(base: Records, current: Records, overBase: nat, overCurrent: nat) returns (d: Delta)
    requires Keyed(base) && Keyed(current)
    ensures d == Compared(base, current, overBase, overCurrent)
  {
    var added: seq<Entry>, changed: seq<Entry>, removed: seq<Removal> := [], [], [];
    for i := 0 to |current.order|
      invariant added == Additions(base, current, i)
      invariant changed == Changes(base, current, i)
    {
      var k := current.order[i];
      if k !in base.elems {
        added := added + [EntryOf(current, i)];
      } else if SigOf(base.elems[k]) != SigOf(current.elems[k]) {
        changed := changed + [EntryOf(current, i)];
      }
    }
    for index := 0 to |base.order|
      invariant removed == Removals(base, current, index)
    {
      if base.order[index] !in current.elems { removed := removed + [Removal(EntryOf(base, index), index)]; }
    }
    d := Cut(added, changed, removed, overBase, overCurrent);
  }

  function Keys(entries: seq<Entry>): (r: seq<Identity>)
    ensures |r| == |entries|
  {
    seq(|entries|, i requires 0 <= i < |entries| => entries[i].identity)
  }

  lemma {:induction false} AdditionsAre(base: Records, current: Records, n: nat)
    requires n <= |current.order| && Keyed(current)
    ensures Keys(Additions(base, current, n)) == Missing(current.order[..n], base.elems)
    ensures forall i :: 0 <= i < |Additions(base, current, n)| ==> var e := Additions(base, current, n)[i];
              e.identity in current.elems && e.element == current.elems[e.identity]
  {
    if n > 0 {
      AdditionsAre(base, current, n - 1);
      assert current.order[..n][..n - 1] == current.order[..n - 1];
    }
  }

  lemma {:induction false} ChangesAre(base: Records, current: Records, n: nat)
    requires n <= |current.order| && Keyed(current)
    ensures Keys(Changes(base, current, n)) == Differing(current.order[..n], base.elems, current.elems)
    ensures forall i :: 0 <= i < |Changes(base, current, n)| ==> var e := Changes(base, current, n)[i];
              e.identity in current.elems && e.element == current.elems[e.identity]
  {
    if n > 0 {
      ChangesAre(base, current, n - 1);
      assert current.order[..n][..n - 1] == current.order[..n - 1];
    }
  }

  function Lost(removals: seq<Removal>): (r: seq<Identity>)
    ensures |r| == |removals|
  {
    seq(|removals|, i requires 0 <= i < |removals| => removals[i].entry.identity)
  }

  lemma {:induction false} RemovalsAre(base: Records, current: Records, n: nat)
    requires n <= |base.order| && Keyed(base)
    ensures Lost(Removals(base, current, n)) == Missing(base.order[..n], current.elems)
    ensures forall i :: 0 <= i < |Removals(base, current, n)| ==> var r := Removals(base, current, n)[i];
              r.index < n && r.entry == EntryOf(base, r.index)
  {
    if n > 0 {
      RemovalsAre(base, current, n - 1);
      assert base.order[..n][..n - 1] == base.order[..n - 1];
    }
  }

  // ---------- what a delta says ----------

  function With(m: map<Identity, Sig>, entries: seq<Entry>): map<Identity, Sig> {
    if entries == [] then m
    else var e := entries[|entries| - 1]; With(m, entries[..|entries| - 1])[e.identity := SigOf(e.element)]
  }

  function Without(m: map<Identity, Sig>, base: Records, removed: seq<Removal>): map<Identity, Sig> {
    if removed == [] then m
    else
      var r, rest := removed[|removed| - 1], Without(m, base, removed[..|removed| - 1]);
      if r.index < |base.order| then rest - {base.order[r.index]} else rest
  }

  /** The base with a delta applied: removals by position, then changes, then additions. */
  function Patched(base: Records, d: Delta): map<Identity, Sig> {
    With(With(Without(SigMap(base), base, d.removed), d.changed), d.added)
  }

  ghost predicate TakenFrom(entries: seq<Entry>, r: Records) {
    forall i :: 0 <= i < |entries| ==>
      entries[i].identity in r.elems && entries[i].element == r.elems[entries[i].identity]
  }

  lemma {:induction false} WithLooksUp(m: map<Identity, Sig>, entries: seq<Entry>, current: Records, k: Identity)
    requires TakenFrom(entries, current)
    ensures k in With(m, entries) <==> k in m || k in Keys(entries)
    ensures k in Keys(entries) ==> k in current.elems && With(m, entries)[k] == SigOf(current.elems[k])
    ensures k in m && k !in Keys(entries) ==> With(m, entries)[k] == m[k]
  {
    if entries != [] {
      var n := |entries| - 1;
      WithLooksUp(m, entries[..n], current, k);
      assert Keys(entries) == Keys(entries[..n]) + [entries[n].identity];
    }
  }

  lemma {:induction false} WithoutLooksUp(m: map<Identity, Sig>, base: Records, removed: seq<Removal>, k: Identity)
    requires Keyed(base)
    requires forall i :: 0 <= i < |removed| ==>
      removed[i].index < |base.order| && removed[i].entry == EntryOf(base, removed[i].index)
    ensures k in Without(m, base, removed) <==> k in m && k !in Lost(removed)
    ensures k in Without(m, base, removed) ==> Without(m, base, removed)[k] == m[k]
  {
    if removed != [] {
      var n := |removed| - 1;
      WithoutLooksUp(m, base, removed[..n], k);
      assert Lost(removed) == Lost(removed[..n]) + [removed[n].entry.identity];
    }
  }

  /** The base with all removals, changes and additions applied. */
  function Completed(base: Records, current: Records): map<Identity, Sig>
    requires Keyed(base) && Keyed(current)
  {
    With(With(Without(SigMap(base), base, Removals(base, current, |base.order|)),
              Changes(base, current, |current.order|)), Additions(base, current, |current.order|))
  }

  /** What a key stands for once a complete delta is applied. */
  lemma PatchedLooksUp(base: Records, current: Records, k: Identity)
    requires Valid(base) && Valid(current) && Keyed(base) && Keyed(current)
    ensures var m := Completed(base, current);
      && (k in m <==> k in SigMap(current))
      && (k in m ==> m[k] == SigMap(current)[k])
  {
    var added, changed := Additions(base, current, |current.order|), Changes(base, current, |current.order|);
    var removed := Removals(base, current, |base.order|);
    AdditionsAre(base, current, |current.order|);
    ChangesAre(base, current, |current.order|);
    RemovalsAre(base, current, |base.order|);
    assert current.order[..|current.order|] == current.order && base.order[..|base.order|] == base.order;
    MissingMembers(current.order, base.elems);
    MissingMembers(base.order, current.elems);
    DifferingMembers(current.order, base.elems, current.elems);
    var kept := Without(SigMap(base), base, removed);
    WithoutLooksUp(SigMap(base), base, removed, k);
    WithLooksUp(kept, changed, current, k);
    WithLooksUp(With(kept, changed), added, current, k);
  }

  function Changed(base: Records, current: Records): nat
    requires Keyed(base) && Keyed(current)
  {
    |Additions(base, current, |current.order|)| + |Changes(base, current, |current.order|)|
    + |Removals(base, current, |base.order|)|
  }

  /** Applied to the base, a delta that is not truncated gives the current capture, up to the
      fields that are not signed. */
  lemma DeltaRebuilds(base: Records, current: Records, overBase: nat, overCurrent: nat)
    requires Valid(base) && Valid(current) && Keyed(base) && Keyed(current)
    requires !Compared(base, current, overBase, overCurrent).truncated
    ensures Patched(base, Compared(base, current, overBase, overCurrent)) == SigMap(current)
    ensures overBase == overCurrent == 0
  {
    NothingCut(base, current, overBase, overCurrent);
    CompletedIsCurrent(base, current);
  }

  lemma NothingCut(base: Records, current: Records, overBase: nat, overCurrent: nat)
    requires Keyed(base) && Keyed(current) && !Compared(base, current, overBase, overCurrent).truncated
    ensures Patched(base, Compared(base, current, overBase, overCurrent)) == Completed(base, current)
    ensures overBase == overCurrent == 0
  {
  }

  lemma CompletedIsCurrent(base: Records, current: Records)
    requires Valid(base) && Valid(current) && Keyed(base) && Keyed(current)
    ensures Completed(base, current) == SigMap(current)
  {
    var m, goal := Completed(base, current), SigMap(current);
    forall k ensures (k in m <==> k in goal) && (k in m ==> m[k] == goal[k]) {
      PatchedLooksUp(base, current, k);
    }
  }

  /** Every delta reports exactly the first 200 changes, and the number it says it omits
      covers all others. */
  lemma OmittedCoversTheRest(base: Records, current: Records, overBase: nat, overCurrent: nat)
    requires Keyed(base) && Keyed(current)
    ensures var d := Compared(base, current, overBase, overCurrent);
      var reported := |d.added| + |d.changed| + |d.removed|;
      && reported == (if Changed(base, current) <= CHANGES then Changed(base, current) else CHANGES)
      && (d.truncated <==> d.omitted.Some?)
      && (d.truncated ==> d.omitted.value > 0 && d.omitted.value >= Changed(base, current) - reported
                          && d.omitted.value >= overBase && d.omitted.value >= overCurrent)
      && (!d.truncated ==> reported == Changed(base, current))
  {
  }
}
