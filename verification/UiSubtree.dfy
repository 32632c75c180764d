/** Collecting the subtree of an element in a flat array. */
module UiSubtree {
  import opened Collections
  import opened Wrappers
  import opened UiTree
  import opened UiPreorder

  // The links of the array may be arbitrary: parent references by number or by name, child lists,
  // holes, cycles.

  /** A parent reference; `text` is lower-cased and trimmed. */
  datatype ParentRef = NoParent | Numbered(number: int) | Named(text: string)

  /** `names` are the lower-cased, trimmed resource id and stable id, empty when absent. */
  datatype UiElement = UiElement(parent: ParentRef, children: seq<int>, resourceId: string, stableId: string)

  /** Entries of the array may be null. */
  type Elements = seq<Option<UiElement>>

  predicate Digits(s: string) {
    s != [] && forall i :: 0 <= i < |s| ==> '0' <= s[i] <= '9'
  }

  function Decimal(s: string): nat
    requires forall i :: 0 <= i < |s| ==> '0' <= s[i] <= '9'
  {
    if s == [] then 0 else 10 * Decimal(s[..|s| - 1]) + (s[|s| - 1] as int - '0' as int)
  }

  predicate GoesBy(e: Option<UiElement>, name: string) {
    e.Some? && (e.value.resourceId == name || e.value.stableId == name)
  }

  function FirstNamed(es: Elements, name: string, from: nat): (r: Option<nat>)
    requires from <= |es|
    ensures r.Some? ==> from <= r.value < |es| && GoesBy(es[r.value], name)
    ensures forall k :: from <= k < (if r.Some? then r.value else |es|) ==> !GoesBy(es[k], name)
    decreases |es| - from
  {
    if from == |es| then None
    else if GoesBy(es[from], name) then Some(from)
    else FirstNamed(es, name, from + 1)
  }

  function ResolveParent(es: Elements, ref: ParentRef): (r: Option<nat>)
    ensures r.Some? ==> r.value < |es|
  {
    match ref
    case NoParent => None
    case Numbered(n) => if 0 <= n < |es| then Some(n) else None
    case Named(text) =>
      if text == "" then None
      else if Digits(text) && Decimal(text) < |es| then Some(Decimal(text))
      else FirstNamed(es, text, 0)
  }

  function ParentOf(es: Elements, i: nat): Option<nat>
    requires i < |es|
  {
    if es[i].Some? then ResolveParent(es, es[i].value.parent) else None
  }

  // ---------- the links as a graph ----------

  ghost predicate Link(es: Elements, i: nat, j: nat) {
    && i < |es| && j < |es| && es[i].Some?
    && (j in es[i].value.children || ParentOf(es, j) == Some(i))
  }

  ghost predicate Route(es: Elements, p: seq<nat>) {
    && p != [] && (forall k :: 0 <= k < |p| ==> p[k] < |es|)
    && forall k :: 0 < k < |p| ==> Link(es, p[k - 1], p[k])
  }

  ghost predicate Reaches(es: Elements, i: nat, j: nat) {
    exists p: seq<nat> :: Route(es, p) && p[0] == i && p[|p| - 1] == j
  }

  lemma ReachesItself(es: Elements, i: nat)
    requires i < |es|
    ensures Reaches(es, i, i)
  {
    assert Route(es, [i]) && [i][0] == i;
  }

  lemma ReachesFurther(es: Elements, i: nat, m: nat, j: nat)
    requires Reaches(es, i, m) && Link(es, m, j)
    ensures Reaches(es, i, j)
  {
    var p :| Route(es, p) && p[0] == i && p[|p| - 1] == m;
    var q := p + [j];
    assert Route(es, q) && q[0] == i && q[|q| - 1] == j;
  }

  ghost predicate Closed(es: Elements, found: set<nat>) {
    forall i, j :: i in found && Link(es, i, j) ==> j in found
  }

  lemma {:induction false} ClosedHoldsRoute(es: Elements, found: set<nat>, p: seq<nat>)
    requires Closed(es, found) && Route(es, p) && p[0] in found
    ensures p[|p| - 1] in found
    decreases |p|
  {
    if |p| > 1 {
      assert Link(es, p[0], p[1]);
      assert forall k :: 0 < k < |p[1..]| ==> p[1..][k - 1] == p[k] && p[1..][k] == p[k + 1];
      ClosedHoldsRoute(es, found, p[1..]);
    }
  }

  lemma ClosedHoldsReachable(es: Elements, found: set<nat>, i: nat, j: nat)
    requires Closed(es, found) && i in found && Reaches(es, i, j)
    ensures j in found
  {
    var p :| Route(es, p) && p[0] == i && p[|p| - 1] == j;
    ClosedHoldsRoute(es, found, p);
  }

  // ---------- sorting ----------

  function Insert(s: seq<nat>, x: nat): (r: seq<nat>)
    ensures |r| == |s| + 1
  {
    if s == [] || x <= s[0] then [x] + s else [s[0]] + Insert(s[1..], x)
  }

  function Sort(s: seq<nat>): (r: seq<nat>)
    ensures |r| == |s|
  {
    if s == [] then [] else Insert(Sort(s[1..]), s[0])
  }

  lemma {:induction false} InsertKeeps(s: seq<nat>, x: nat)
    requires Increasing(s) && x !in s
    ensures Increasing(Insert(s, x))
    ensures forall y :: y in Insert(s, x) <==> y == x || y in s
  {
    if s != [] && x > s[0] {
      InsertKeeps(s[1..], x);
      assert s == [s[0]] + s[1..];
      var tail := Insert(s[1..], x);
      forall k | 0 <= k < |tail| ensures s[0] < tail[k] { assert tail[k] in tail; }
    } else if s != [] {
      assert s[0] in s;
    }
  }

  lemma {:induction false} SortKeeps(s: seq<nat>)
    requires Unique(s)
    ensures Increasing(Sort(s))
    ensures forall y :: y in Sort(s) <==> y in s
  {
    if s != [] {
      SortKeeps(s[1..]);
      assert s == [s[0]] + s[1..];
      assert s[0] !in s[1..];
      InsertKeeps(Sort(s[1..]), s[0]);
    }
  }

  // ---------- the search ----------

  /** The linked elements of `index`, each once: first its child list, then by parent. */
  method ChildIndices(es: Elements, index: nat) returns (found: seq<nat>)
    requires index < |es| && es[index].Some?
    ensures Unique(found)
    ensures forall j: nat :: j in found <==> Link(es, index, j)
  {
    found := [];
    var children := es[index].value.children;
    for k := 0 to |children|
      invariant Unique(found)
      invariant forall j: nat :: j in found <==> j < |es| && j in children[..k]
    {
      if 0 <= children[k] < |es| && children[k] !in found { found := found + [children[k]]; }
      assert children[..k + 1] == children[..k] + [children[k]];
    }
    assert children[..|children|] == children;
    for i := 0 to |es|
      invariant Unique(found)
      invariant forall j: nat :: j in found <==>
        j < |es| && (j in children || (j < i && ParentOf(es, j) == Some(index)))
    {
      if ParentOf(es, i) == Some(index) && i !in found { found := found + [i]; }
    }
  }

  ghost predicate Searched(es: Elements, root: nat, visited: set<nat>, stack: seq<nat>) {
    && root < |es|
    && (forall i :: i in visited ==> i < |es|)
    && (root in visited || root in stack)
    && (forall i :: i in visited || i in stack ==> Reaches(es, root, i))
    && forall i, j :: i in visited && Link(es, i, j) ==> j in visited || j in stack
  }

  lemma SearchedWhenDone(es: Elements, root: nat, visited: set<nat>)
    requires Searched(es, root, visited, [])
    ensures forall j :: j in visited <==> Reaches(es, root, j)
  {
    assert Closed(es, visited);
    forall j | Reaches(es, root, j) ensures j in visited { ClosedHoldsReachable(es, visited, root, j); }
  }

  lemma Indices(visited: set<nat>, n: nat)
    requires forall i :: i in visited ==> i < n
    ensures |visited| <= n
    decreases n
  {
    if n > 0 {
      Indices(visited - {n - 1}, n - 1);
      assert visited <= (visited - {n - 1}) + {n - 1};
    }
  }

  lemma VisitedGrows(es: Elements, visited: set<nat>, i: nat)
    requires (forall k :: k in visited ==> k < |es|) && i < |es| && i !in visited
    ensures |visited| < |visited + {i}| <= |es|
  {
    Indices(visited + {i}, |es|);
  }

  /** An index popped for the first time trades its place on the stack for its unvisited links. */
  lemma VisitKeeps(es: Elements, root: nat, visited: set<nat>, stack: seq<nat>, index: nat, more: seq<nat>)
    requires Searched(es, root, visited, stack + [index]) && index < |es|
    requires forall j :: j in more ==> Link(es, index, j)
    requires forall j :: Link(es, index, j) ==> j in visited + {index} || j in more
    ensures Searched(es, root, visited + {index}, stack + more)
  {
    var visited', stack' := visited + {index}, stack + more;
    assert index in stack + [index];
    forall j | j in stack' ensures Reaches(es, root, j) {
      if j in more {
        ReachesFurther(es, root, index, j);
      } else {
        assert j in stack + [index];
      }
    }
    forall j | j in visited || j in stack + [index] ensures j in visited' || j in stack' {}
  }

  /** On any array, whatever its links: exactly the indices reachable from `root`, ascending,
      each once. */
  method CollectSubtree(es: Elements, root: int) returns (result: seq<nat>)
    ensures Increasing(result)
    ensures !(0 <= root < |es|) ==> result == []
    ensures 0 <= root < |es| ==> forall j :: j in result <==> Reaches(es, root, j)
  {
    if root < 0 || root >= |es| { return []; }
    var visited: set<nat> := {};
    var stack: seq<nat> := [root];
    result := [];
    ReachesItself(es, root);
    while stack != []
      invariant Searched(es, root, visited, stack)
      invariant forall i :: i in stack ==> i < |es|
      invariant Unique(result) && forall i :: i in result <==> i in visited
      decreases |es| - |visited|, |stack|
    {
      var index, rest := stack[|stack| - 1], stack[..|stack| - 1];
      assert stack == rest + [index] && index in stack;
      stack := rest;
      if index in visited {
        continue;
      }
      VisitedGrows(es, visited, index);
      ghost var before := visited;
      visited := visited + {index};
      result := result + [index];
      var more: seq<nat> := [];
      if es[index].Some? { more := Unvisited(es, index, visited); }
      VisitKeeps(es, root, before, rest, index, more);
      stack := rest + more;
    }
    SearchedWhenDone(es, root, visited);
    SortKeeps(result);
    result := Sort(result);
  }

  method Unvisited(es: Elements, index: nat, visited: set<nat>) returns (more: seq<nat>)
    requires index < |es| && es[index].Some?
    ensures forall j: nat :: j in more <==> Link(es, index, j) && j !in visited
  {
    var found := ChildIndices(es, index);
    more := [];
    for k := 0 to |found|
      invariant forall j: nat :: j in more <==> j in found[..k] && j !in visited
    {
      if found[k] !in visited { more := more + [found[k]]; }
      assert found[..k + 1] == found[..k] + [found[k]];
    }
    assert found[..|found|] == found;
  }

  // ---------- on a flattened forest ----------

  function AsElement(e: Element): (u: UiElement)
    ensures |u.children| == |Kids(e)| && forall k :: 0 <= k < |Kids(e)| ==> u.children[k] == Kids(e)[k]
  {
    var kids := Kids(e);
    UiElement(if e.parent.Some? then Numbered(e.parent.value) else NoParent,
              seq(|kids|, k requires 0 <= k < |kids| => kids[k] as int), "", "")
  }

  /** The flattened list as later readers see it. */
  function AsElements(es: seq<Element>): (r: Elements)
    ensures |r| == |es| && forall i :: 0 <= i < |es| ==> r[i] == Some(AsElement(es[i]))
  {
    seq(|es|, i requires 0 <= i < |es| => Some(AsElement(es[i])))
  }

  ghost predicate Faithful(es: seq<Element>, ps: seq<Path>) {
    Ascending(ps) && Hung(es, ps, None, 0, 0) && Listed(es, ps, 0)
  }

  lemma LinkGoesDown(es: seq<Element>, ps: seq<Path>, i: nat, j: nat)
    requires Faithful(es, ps) && Link(AsElements(es), i, j)
    ensures Within(ps[i], ps[j])
  {
    if j in Kids(es[i]) {
      assert Lists(es, ps, i, 0);
    } else {
      assert Hangs(es, ps, j, None, 0, 0);
    }
  }

  lemma {:induction false} RouteGoesDown(es: seq<Element>, ps: seq<Path>, r: seq<nat>)
    requires Faithful(es, ps) && Route(AsElements(es), r)
    ensures Within(ps[r[0]], ps[r[|r| - 1]])
    decreases |r|
  {
    var k := |r| - 1;
    if k > 0 {
      var s := r[..k];
      assert Route(AsElements(es), s);
      RouteGoesDown(es, ps, s);
      assert s[|s| - 1] == r[k - 1] && s[0] == r[0];
      LinkGoesDown(es, ps, r[k - 1], r[k]);
    }
  }

  lemma {:induction false} DescendantReached(es: seq<Element>, ps: seq<Path>, i: nat, j: nat)
    requires Faithful(es, ps) && i < |ps| && j < |ps| && Within(ps[i], ps[j])
    ensures Reaches(AsElements(es), i, j)
    decreases j
  {
    if ps[i] == ps[j] {
      Distinct(ps, i, j);
      ReachesItself(AsElements(es), i);
    } else {
      assert Hangs(es, ps, j, None, 0, 0);
      var m: nat :| m < j && Nearest(ps, m, j) && es[j].parent == Some(m);
      DescendantReached(es, ps, i, m);
      ReachesFurther(AsElements(es), i, m, j);
    }
  }

  /** In a flattened forest the subtree of an element is the contiguous block that starts at
      it and is as long as its node has useful nodes. */
  lemma SubtreeIsBlock(forest: seq<Node>, i: nat, j: nat)
    requires i < |Flattened(forest)| && j < |Flattened(forest)|
    ensures i < |Order(forest)|
    ensures Reaches(AsElements(Flattened(forest)), i, j)
        <==> i <= j < i + Size(AtForest(forest, Order(forest)[i]))
  {
    var es, ps := Flattened(forest), Order(forest);
    FlattenedIsPreorder(forest);
    PathsFromBlocked(forest, 0, i);
    if Within(ps[i], ps[j]) { DescendantReached(es, ps, i, j); }
    if Reaches(AsElements(es), i, j) {
      var r :| Route(AsElements(es), r) && r[0] == i && r[|r| - 1] == j;
      RouteGoesDown(es, ps, r);
    }
  }

  function Block(i: nat, size: nat): (r: seq<nat>) { seq(size, k requires 0 <= k < size => i + k) }

  lemma {:induction false} OnlyBlock(s: seq<nat>, i: nat, size: nat)
    requires Increasing(s) && forall x :: x in s <==> i <= x < i + size
    ensures s == Block(i, size)
  {
    if s == [] {
      assert size > 0 ==> i in s;
    } else {
      assert s[0] in s && i in s;
      assert s == [s[0]] + s[1..];
      forall x: nat ensures x in s[1..] <==> s[0] < x && x in s {
        if x in s[1..] { var k :| 0 <= k < |s[1..]| && s[1..][k] == x; }
      }
      assert s[0] == i;
      OnlyBlock(s[1..], i + 1, size - 1);
    }
  }

  /** So what the search returns for an element of a flattened forest is that block. */
  lemma CollectedIsBlock(forest: seq<Node>, i: nat, result: seq<nat>)
    requires i < |Flattened(forest)| && Increasing(result)
    requires forall j :: j in result <==> Reaches(AsElements(Flattened(forest)), i, j)
    ensures i < |Order(forest)|
    ensures result == Block(i, Size(AtForest(forest, Order(forest)[i])))
  {
    var es := AsElements(Flattened(forest));
    FlattenedIsPreorder(forest);
    PathsFromBlocked(forest, 0, i);
    forall x: nat ensures x in result <==> i <= x < i + Size(AtForest(forest, Order(forest)[i])) {
      if x < |es| { SubtreeIsBlock(forest, i, x); }
    }
    OnlyBlock(result, i, Size(AtForest(forest, Order(forest)[i])));
  }
}
