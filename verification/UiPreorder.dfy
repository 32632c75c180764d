/** What a flattened forest means: its elements are the useful nodes in preorder, each linked
    to its nearest useful ancestor. */
module UiPreorder {
  import opened Wrappers
  import opened UiTree

  /** The child numbers that lead from the roots of a forest to a node. */
  type Path = seq<nat>

  function At(n: Node, p: Path): Node {
    if p == [] then n else if n.Missing? then Missing else AtForest(n.children, p)
  }

  function AtForest(nodes: seq<Node>, p: Path): Node
    decreases nodes, p
  {
    if p == [] || p[0] >= |nodes| then Missing else At(nodes[p[0]], p[1..])
  }

  /** Preorder of paths. */
  predicate Before(p: Path, q: Path) {
    q != [] && (p == [] || p[0] < q[0] || (p[0] == q[0] && Before(p[1..], q[1..])))
  }

  predicate Within(p: Path, q: Path) { |p| <= |q| && q[..|p|] == p }

  predicate Above(p: Path, q: Path) { Within(p, q) && p != q }

  // ---------- the useful nodes, in preorder ----------

  function Below(k: nat, ps: seq<Path>): (r: seq<Path>)
    ensures |r| == |ps| && forall i :: 0 <= i < |ps| ==> r[i] == [k] + ps[i]
  {
    seq(|ps|, i requires 0 <= i < |ps| => [k] + ps[i])
  }

  function Paths(n: Node): seq<Path>
    decreases n, 0, 0
  {
    if n.Missing? then [] else (if n.useful then [[]] else []) + PathsFrom(n.children, 0)
  }

  function PathsFrom(nodes: seq<Node>, k: nat): seq<Path>
    requires k <= |nodes|
    decreases nodes, 1, |nodes| - k
  {
    if k == |nodes| then [] else Below(k, Paths(nodes[k])) + PathsFrom(nodes, k + 1)
  }

  ghost predicate Starts(ps: seq<Path>, lo: nat) {
    forall i :: 0 <= i < |ps| ==> ps[i] != [] && lo <= ps[i][0]
  }

  ghost predicate Ascending(ps: seq<Path>) {
    forall i, j :: 0 <= i < j < |ps| ==> Before(ps[i], ps[j])
  }

  lemma {:induction false} PathsFromStarts(nodes: seq<Node>, k: nat)
    requires k <= |nodes|
    ensures Starts(PathsFrom(nodes, k), k)
    decreases |nodes| - k
  {
    if k < |nodes| { PathsFromStarts(nodes, k + 1); }
  }

  /** The list runs strictly forward in preorder ... */
  lemma {:induction false} PathsAscend(n: Node)
    ensures Ascending(Paths(n))
    decreases n, 0, 0
  {
    if n.Node? {
      PathsFromAscend(n.children, 0);
      PathsFromStarts(n.children, 0);
    }
  }

  lemma {:induction false} PathsFromAscend(nodes: seq<Node>, k: nat)
    requires k <= |nodes|
    ensures Ascending(PathsFrom(nodes, k))
    decreases nodes, 1, |nodes| - k
  {
    if k < |nodes| {
      PathsAscend(nodes[k]);
      PathsFromAscend(nodes, k + 1);
      PathsFromStarts(nodes, k + 1);
    }
  }

  lemma InBelow(k: nat, ps: seq<Path>, p: Path)
    ensures p in Below(k, ps) <==> p != [] && p[0] == k && p[1..] in ps
  {
    if p in Below(k, ps) {
      var i :| 0 <= i < |ps| && Below(k, ps)[i] == p;
      assert p[1..] == ps[i];
    }
    if p != [] && p[0] == k && p[1..] in ps {
      var i :| 0 <= i < |ps| && ps[i] == p[1..];
      assert Below(k, ps)[i] == [k] + p[1..] == p;
    }
  }

  /** ... and holds exactly the useful nodes. */
  lemma {:induction false} PathsExactly(n: Node, p: Path)
    ensures p in Paths(n) <==> Useful(At(n, p))
    decreases n, 0, 0
  {
    if n.Node? {
      PathsFromExactly(n.children, 0, p);
      PathsFromStarts(n.children, 0);
    }
  }

  lemma {:induction false} PathsFromExactly(nodes: seq<Node>, k: nat, p: Path)
    requires k <= |nodes|
    ensures p in PathsFrom(nodes, k) <==> p != [] && k <= p[0] && Useful(AtForest(nodes, p))
    decreases nodes, 1, |nodes| - k
  {
    if k < |nodes| {
      PathsFromExactly(nodes, k + 1, p);
      BelowExactly(nodes, k, p);
    }
  }

  lemma BelowExactly(nodes: seq<Node>, k: nat, p: Path)
    requires k < |nodes|
    ensures p in Below(k, Paths(nodes[k])) <==> p != [] && p[0] == k && Useful(AtForest(nodes, p))
    decreases nodes, 0, 0
  {
    InBelow(k, Paths(nodes[k]), p);
    if p != [] { PathsExactly(nodes[k], p[1..]); }
  }

  // ---------- what the flat list holds ----------

  lemma {:induction false} SameLength(n: Node)
    ensures |Paths(n)| == Size(n)
    decreases n, 0, 0
  {
    if n.Node? {
      SameLengthFrom(n.children, 0);
      assert n.children[0..] == n.children;
    }
  }

  lemma {:induction false} SameLengthFrom(nodes: seq<Node>, k: nat)
    requires k <= |nodes|
    ensures |PathsFrom(nodes, k)| == SizeAll(nodes[k..])
    decreases nodes, 1, |nodes| - k
  {
    if k < |nodes| {
      SameLength(nodes[k]);
      SameLengthFrom(nodes, k + 1);
      assert nodes[k..][1..] == nodes[k + 1..];
    }
  }

  ghost predicate Contents(es: seq<Element>, ps: seq<Path>, nodes: seq<Node>) {
    && |es| == |ps|
    && forall i :: 0 <= i < |es| ==> AtForest(nodes, ps[i]).Node? && es[i].content == AtForest(nodes, ps[i]).content
  }

  ghost predicate ContentsOf(es: seq<Element>, ps: seq<Path>, n: Node) {
    && |es| == |ps|
    && forall i :: 0 <= i < |es| ==> At(n, ps[i]).Node? && es[i].content == At(n, ps[i]).content
  }

  lemma JoinContents(es: seq<Element>, ps: seq<Path>, es': seq<Element>, ps': seq<Path>, nodes: seq<Node>, k: nat)
    requires k < |nodes|
    requires ContentsOf(es, ps, nodes[k]) && Contents(es', ps', nodes)
    ensures Contents(es + es', Below(k, ps) + ps', nodes)
  {
  }

  lemma {:induction false} FlatContents(n: Node, parent: Option<nat>, depth: nat, base: nat)
    ensures ContentsOf(Flat(n, parent, depth, base), Paths(n), n)
    decreases n, 0, 0
  {
    if n.Node? {
      assert n.children[0..] == n.children;
      PathsFromStarts(n.children, 0);
      if n.useful {
        FlatAllContents(n.children, 0, Some(base), depth + 1, base + 1);
      } else {
        FlatAllContents(n.children, 0, parent, depth, base);
      }
    }
  }

  lemma {:induction false} FlatAllContents(nodes: seq<Node>, k: nat, parent: Option<nat>, depth: nat, base: nat)
    requires k <= |nodes|
    ensures Contents(FlatAll(nodes[k..], parent, depth, base), PathsFrom(nodes, k), nodes)
    decreases nodes, 1, |nodes| - k
  {
    if k < |nodes| {
      var size := Size(nodes[k]);
      FlatContents(nodes[k], parent, depth, base);
      FlatAllContents(nodes, k + 1, parent, depth, base + size);
      assert nodes[k..][1..] == nodes[k + 1..];
      JoinContents(Flat(nodes[k], parent, depth, base), Paths(nodes[k]),
                   FlatAll(nodes[k + 1..], parent, depth, base + size), PathsFrom(nodes, k + 1), nodes, k);
    }
  }

  // ---------- parents and depths ----------

  /** Entry `j` is the nearest useful ancestor of entry `i`. */
  ghost predicate Nearest(ps: seq<Path>, j: nat, i: nat)
    requires j < |ps| && i < |ps|
  {
    Above(ps[j], ps[i]) && forall k :: 0 <= k < |ps| && Above(ps[k], ps[i]) ==> Within(ps[k], ps[j])
  }

  ghost predicate Topmost(ps: seq<Path>, i: nat)
    requires i < |ps|
  {
    forall k :: 0 <= k < |ps| ==> !Above(ps[k], ps[i])
  }

  /** Entry `i` hangs under its nearest useful ancestor in the list, or under what the whole
      list hangs under. */
  ghost predicate Hangs(es: seq<Element>, ps: seq<Path>, i: nat, parent: Option<nat>, depth: nat, base: nat)
    requires i < |es| == |ps|
  {
    || (exists j: nat :: j < i && Nearest(ps, j, i) && es[i].parent == Some(base + j) && es[i].depth == es[j].depth + 1)
    || (Topmost(ps, i) && es[i].parent == parent && es[i].depth == depth)
  }

  ghost predicate Hung(es: seq<Element>, ps: seq<Path>, parent: Option<nat>, depth: nat, base: nat) {
    |es| == |ps| && forall i :: 0 <= i < |es| ==> Hangs(es, ps, i, parent, depth, base)
  }

  lemma BelowWithin(k: nat, p: Path, q: Path)
    ensures Within([k] + p, [k] + q) <==> Within(p, q)
    ensures Above([k] + p, [k] + q) <==> Above(p, q)
  {
    if |p| <= |q| { assert ([k] + q)[..|p| + 1] == [k] + q[..|p|]; }
    assert ([k] + p)[1..] == p && ([k] + q)[1..] == q;
  }

  lemma BelowHangs(es: seq<Element>, ps: seq<Path>, i: nat, parent: Option<nat>, depth: nat, base: nat, k: nat)
    requires i < |es| == |ps|
    requires Hangs(es, ps, i, parent, depth, base)
    ensures Hangs(es, Below(k, ps), i, parent, depth, base)
  {
    forall a, b | 0 <= a < |ps| && 0 <= b < |ps|
      ensures Above(Below(k, ps)[a], Below(k, ps)[b]) <==> Above(ps[a], ps[b])
      ensures Within(Below(k, ps)[a], Below(k, ps)[b]) <==> Within(ps[a], ps[b])
    {
      BelowWithin(k, ps[a], ps[b]);
    }
    if !Topmost(ps, i) || es[i].parent != parent || es[i].depth != depth {
      var j: nat :| j < i && Nearest(ps, j, i) && es[i].parent == Some(base + j) && es[i].depth == es[j].depth + 1;
      assert Nearest(Below(k, ps), j, i);
    } else {
      assert Topmost(Below(k, ps), i);
    }
  }

  /** No entry of one list is above an entry of the other. */
  ghost predicate Apart(ps: seq<Path>, qs: seq<Path>) {
    forall a, b :: 0 <= a < |ps| && 0 <= b < |qs| ==> !Above(ps[a], qs[b]) && !Above(qs[b], ps[a])
  }

  lemma ApartBelow(k: nat, ps: seq<Path>, qs: seq<Path>)
    requires Starts(qs, k + 1)
    ensures Apart(Below(k, ps), qs)
  {
  }

  lemma LeftHangs(es: seq<Element>, ps: seq<Path>, es': seq<Element>, ps': seq<Path>, i: nat,
                  parent: Option<nat>, depth: nat, base: nat)
    requires i < |es| == |ps| && |es'| == |ps'| && Apart(ps, ps')
    requires Hangs(es, ps, i, parent, depth, base)
    ensures Hangs(es + es', ps + ps', i, parent, depth, base)
  {
    if !Topmost(ps, i) || es[i].parent != parent || es[i].depth != depth {
      var j: nat :| j < i && Nearest(ps, j, i) && es[i].parent == Some(base + j) && es[i].depth == es[j].depth + 1;
      assert Nearest(ps + ps', j, i);
      assert (es + es')[j] == es[j];
    } else {
      assert Topmost(ps + ps', i);
    }
  }

  lemma RightHangs(es: seq<Element>, ps: seq<Path>, es': seq<Element>, ps': seq<Path>, i: nat,
                   parent: Option<nat>, depth: nat, base: nat)
    requires |es| == |ps| && i < |es'| == |ps'| && Apart(ps, ps')
    requires Hangs(es', ps', i, parent, depth, base + |es|)
    ensures Hangs(es + es', ps + ps', |es| + i, parent, depth, base)
  {
    var n := |es|;
    if !Topmost(ps', i) || es'[i].parent != parent || es'[i].depth != depth {
      var j: nat :| j < i && Nearest(ps', j, i) && es'[i].parent == Some(base + n + j)
        && es'[i].depth == es'[j].depth + 1;
      assert (ps + ps')[n + j] == ps'[j] && (es + es')[n + j] == es'[j];
      assert Nearest(ps + ps', n + j, n + i);
    } else {
      assert Topmost(ps + ps', n + i);
    }
  }

  lemma JoinHung(k: nat, es: seq<Element>, ps: seq<Path>, es': seq<Element>, ps': seq<Path>,
                 parent: Option<nat>, depth: nat, base: nat)
    requires Hung(es, ps, parent, depth, base) && Hung(es', ps', parent, depth, base + |es|)
    requires Starts(ps', k + 1)
    ensures Hung(es + es', Below(k, ps) + ps', parent, depth, base)
  {
    ApartBelow(k, ps, ps');
    forall i | 0 <= i < |es + es'| ensures Hangs(es + es', Below(k, ps) + ps', i, parent, depth, base) {
      if i < |es| {
        BelowHangs(es, ps, i, parent, depth, base, k);
        LeftHangs(es, Below(k, ps), es', ps', i, parent, depth, base);
      } else {
        RightHangs(es, Below(k, ps), es', ps', i - |es|, parent, depth, base);
      }
    }
  }

  lemma RootHangs(own: Element, es: seq<Element>, ps: seq<Path>, i: nat, base: nat)
    requires i < |es| == |ps| && Starts(ps, 0)
    requires Hangs(es, ps, i, Some(base), own.depth + 1, base + 1)
    ensures Hangs([own] + es, [[]] + ps, i + 1, own.parent, own.depth, base)
  {
    var all, qs := [own] + es, [[]] + ps;
    if !Topmost(ps, i) || es[i].parent != Some(base) || es[i].depth != own.depth + 1 {
      var j: nat :| j < i && Nearest(ps, j, i) && es[i].parent == Some(base + 1 + j) && es[i].depth == es[j].depth + 1;
      assert qs[j + 1] == ps[j] && all[j + 1] == es[j];
      assert Nearest(qs, j + 1, i + 1);
    } else {
      assert Nearest(qs, 0, i + 1);
    }
  }

  lemma RootHung(own: Element, es: seq<Element>, ps: seq<Path>, base: nat)
    requires Hung(es, ps, Some(base), own.depth + 1, base + 1) && Starts(ps, 0)
    ensures Hung([own] + es, [[]] + ps, own.parent, own.depth, base)
  {
    var all, qs := [own] + es, [[]] + ps;
    forall i | 0 <= i < |all| ensures Hangs(all, qs, i, own.parent, own.depth, base) {
      if i == 0 {
        assert Topmost(qs, 0);
      } else {
        RootHangs(own, es, ps, i - 1, base);
      }
    }
  }

  lemma {:induction false} FlatHung(n: Node, parent: Option<nat>, depth: nat, base: nat)
    ensures Hung(Flat(n, parent, depth, base), Paths(n), parent, depth, base)
    decreases n, 0, 0
  {
    if n.Node? {
      var ps := PathsFrom(n.children, 0);
      assert n.children[0..] == n.children;
      if n.useful {
        FlatAllHung(n.children, 0, Some(base), depth + 1, base + 1);
        PathsFromStarts(n.children, 0);
        RootHung(Own(n, parent, depth, base), FlatAll(n.children, Some(base), depth + 1, base + 1), ps, base);
      } else {
        FlatAllHung(n.children, 0, parent, depth, base);
        assert Paths(n) == ps;
      }
    }
  }

  lemma {:induction false} FlatAllHung(nodes: seq<Node>, k: nat, parent: Option<nat>, depth: nat, base: nat)
    requires k <= |nodes|
    ensures Hung(FlatAll(nodes[k..], parent, depth, base), PathsFrom(nodes, k), parent, depth, base)
    decreases nodes, 1, |nodes| - k
  {
    if k < |nodes| {
      var size := Size(nodes[k]);
      FlatSize(nodes[k], parent, depth, base);
      FlatHung(nodes[k], parent, depth, base);
      FlatAllHung(nodes, k + 1, parent, depth, base + size);
      PathsFromStarts(nodes, k + 1);
      assert nodes[k..][1..] == nodes[k + 1..];
      JoinHung(k, Flat(nodes[k], parent, depth, base), Paths(nodes[k]),
               FlatAll(nodes[k + 1..], parent, depth, base + size), PathsFrom(nodes, k + 1), parent, depth, base);
    }
  }

  // ---------- child lists ----------

  function Kids(e: Element): seq<nat> { if e.children.Some? then e.children.value else [] }

  /** `q` is a child of `p` in the original forest. */
  predicate Over(p: Path, q: Path) { Above(p, q) && |q| == |p| + 1 }

  ghost predicate Increasing(s: seq<nat>) {
    forall a, b :: 0 <= a < b < |s| ==> s[a] < s[b]
  }

  /** The child list of entry `i` holds exactly its own useful children, in order. */
  ghost predicate Lists(es: seq<Element>, ps: seq<Path>, i: nat, base: nat)
    requires i < |es| == |ps|
  {
    && Increasing(Kids(es[i])) && es[i].children != Some([])
    && forall c: nat :: c in Kids(es[i]) <==> base <= c < base + |ps| && Over(ps[i], ps[c - base])
  }

  ghost predicate Listed(es: seq<Element>, ps: seq<Path>, base: nat) {
    |es| == |ps| && forall i :: 0 <= i < |es| ==> Lists(es, ps, i, base)
  }

  lemma JoinListed(k: nat, es: seq<Element>, ps: seq<Path>, es': seq<Element>, ps': seq<Path>, base: nat)
    requires Listed(es, ps, base) && Listed(es', ps', base + |es|) && Starts(ps', k + 1)
    ensures Listed(es + es', Below(k, ps) + ps', base)
  {
    ApartBelow(k, ps, ps');
    forall i | 0 <= i < |es + es'| ensures Lists(es + es', Below(k, ps) + ps', i, base) {
      if i < |es| {
        LeftLists(k, es, ps, es', ps', i, base);
      } else {
        RightLists(es, Below(k, ps), es', ps', i - |es|, base);
      }
    }
  }

  lemma LeftLists(k: nat, es: seq<Element>, ps: seq<Path>, es': seq<Element>, ps': seq<Path>, i: nat, base: nat)
    requires i < |es| == |ps| && |es'| == |ps'| && Apart(Below(k, ps), ps') && Lists(es, ps, i, base)
    ensures Lists(es + es', Below(k, ps) + ps', i, base)
  {
    var qs := Below(k, ps) + ps';
    assert (es + es')[i] == es[i] && qs[i] == [k] + ps[i];
    forall c: nat ensures c in Kids(es[i]) <==> base <= c < base + |qs| && Over(qs[i], qs[c - base]) {
      if base <= c < base + |ps| {
        BelowWithin(k, ps[i], ps[c - base]);
        assert qs[c - base] == [k] + ps[c - base];
      } else if base + |ps| <= c < base + |qs| {
        assert qs[c - base] == ps'[c - base - |ps|];
        assert qs[i] == Below(k, ps)[i];
      }
    }
  }

  lemma RightLists(es: seq<Element>, ps: seq<Path>, es': seq<Element>, ps': seq<Path>, i: nat, base: nat)
    requires |es| == |ps| && i < |es'| == |ps'| && Apart(ps, ps') && Lists(es', ps', i, base + |es|)
    ensures Lists(es + es', ps + ps', |es| + i, base)
  {
  }

  lemma {:induction false} DirectIncreasing(nodes: seq<Node>, base: nat)
    ensures Increasing(Direct(nodes, base))
    ensures forall a :: 0 <= a < |Direct(nodes, base)| ==> base <= Direct(nodes, base)[a]
  {
    if nodes != [] {
      DirectIncreasing(nodes[1..], base + Size(nodes[0]));
    }
  }

  /** Of one tree only the root has the empty path. */
  lemma RootPath(n: Node)
    ensures Useful(n) ==> |Paths(n)| > 0 && Paths(n)[0] == []
    ensures forall i :: 0 <= i < |Paths(n)| && !(i == 0 && Useful(n)) ==> Paths(n)[i] != []
  {
    if n.Node? { PathsFromStarts(n.children, 0); }
  }

  predicate Single(ps: seq<Path>, i: int) { 0 <= i < |ps| && |ps[i]| == 1 }

  lemma SinglesSplit(k: nat, ps: seq<Path>, ps': seq<Path>, useful: bool, i: int)
    requires useful ==> |ps| > 0 && ps[0] == []
    requires forall t :: 0 <= t < |ps| && !(t == 0 && useful) ==> ps[t] != []
    ensures Single(Below(k, ps) + ps', i) <==> (i == 0 && useful) || Single(ps', i - |ps|)
  {
  }

  lemma {:induction false} DirectExactly(nodes: seq<Node>, k: nat, base: nat, c: nat)
    requires k <= |nodes|
    ensures c in Direct(nodes[k..], base) <==> Single(PathsFrom(nodes, k), c - base)
    decreases |nodes| - k
  {
    if k < |nodes| {
      var size := Size(nodes[k]);
      DirectIncreasing(nodes[k + 1..], base + size);
      DirectExactly(nodes, k + 1, base + size, c);
      assert nodes[k..][1..] == nodes[k + 1..];
      var d := Direct(nodes[k + 1..], base + size);
      assert c in Direct(nodes[k..], base) <==> (c == base && Useful(nodes[k])) || c in d;
      SameLength(nodes[k]);
      RootPath(nodes[k]);
      SinglesSplit(k, Paths(nodes[k]), PathsFrom(nodes, k + 1), Useful(nodes[k]), c - base);
    }
  }

  lemma RootKids(kids: seq<nat>, ps: seq<Path>, base: nat)
    requires forall c: nat :: c in kids <==> Single(ps, c - base - 1)
    ensures var qs := [[]] + ps;
      forall c: nat :: c in kids <==> base <= c < base + |qs| && Over(qs[0], qs[c - base])
  {
  }

  lemma RootLists(n: Node, parent: Option<nat>, depth: nat, base: nat)
    requires Useful(n)
    ensures |Flat(n, parent, depth, base)| == |Paths(n)| > 0
    ensures Lists(Flat(n, parent, depth, base), Paths(n), 0, base)
  {
    FlatSize(n, parent, depth, base);
    SameLength(n);
    PathsFromStarts(n.children, 0);
    DirectIncreasing(n.children, base + 1);
    assert n.children[0..] == n.children;
    var kids := Direct(n.children, base + 1);
    forall c: nat ensures c in kids <==> Single(PathsFrom(n.children, 0), c - base - 1) {
      DirectExactly(n.children, 0, base + 1, c);
    }
    RootKids(kids, PathsFrom(n.children, 0), base);
  }

  lemma OthersList(own: Element, es: seq<Element>, ps: seq<Path>, i: nat, base: nat)
    requires i < |es| == |ps| && Lists(es, ps, i, base + 1)
    ensures Lists([own] + es, [[]] + ps, i + 1, base)
  {
  }

  lemma {:induction false} FlatListed(n: Node, parent: Option<nat>, depth: nat, base: nat)
    ensures Listed(Flat(n, parent, depth, base), Paths(n), base)
    decreases n, 0, 0
  {
    if n.Node? {
      var es, ps := Flat(n, parent, depth, base), Paths(n);
      assert n.children[0..] == n.children;
      if n.useful {
        FlatAllListed(n.children, 0, Some(base), depth + 1, base + 1);
        RootLists(n, parent, depth, base);
        forall i | 0 <= i < |es| ensures Lists(es, ps, i, base) {
          if i > 0 {
            OthersList(Own(n, parent, depth, base), FlatAll(n.children, Some(base), depth + 1, base + 1),
                       PathsFrom(n.children, 0), i - 1, base);
          }
        }
      } else {
        FlatAllListed(n.children, 0, parent, depth, base);
        assert ps == PathsFrom(n.children, 0);
      }
    }
  }

  lemma {:induction false} FlatAllListed(nodes: seq<Node>, k: nat, parent: Option<nat>, depth: nat, base: nat)
    requires k <= |nodes|
    ensures Listed(FlatAll(nodes[k..], parent, depth, base), PathsFrom(nodes, k), base)
    decreases nodes, 1, |nodes| - k
  {
    if k < |nodes| {
      var size := Size(nodes[k]);
      FlatSize(nodes[k], parent, depth, base);
      FlatListed(nodes[k], parent, depth, base);
      FlatAllListed(nodes, k + 1, parent, depth, base + size);
      PathsFromStarts(nodes, k + 1);
      assert nodes[k..][1..] == nodes[k + 1..];
      JoinListed(k, Flat(nodes[k], parent, depth, base), Paths(nodes[k]),
                 FlatAll(nodes[k + 1..], parent, depth, base + size), PathsFrom(nodes, k + 1), base);
    }
  }

  // ---------- the whole forest ----------

  /** The list the observers build from the roots `forest`. */
  function Flattened(forest: seq<Node>): seq<Element> { FlatAll(forest, None, 0, 0) }

  function Order(forest: seq<Node>): seq<Path> { PathsFrom(forest, 0) }

  /** The flat list is the preorder of the useful nodes; every element copies its node, names
      its nearest useful ancestor as its parent, sits one level below it, and lists exactly its
      own useful children. */
  lemma FlattenedIsPreorder(forest: seq<Node>)
    ensures var es, ps := Flattened(forest), Order(forest);
      && Ascending(ps) && (forall p :: p in ps <==> Useful(AtForest(forest, p)))
      && Contents(es, ps, forest)
      && Hung(es, ps, None, 0, 0)
      && Listed(es, ps, 0)
  {
    assert forest[0..] == forest;
    PathsFromAscend(forest, 0);
    forall p ensures p in Order(forest) <==> Useful(AtForest(forest, p)) {
      PathsFromExactly(forest, 0, p);
    }
    FlatAllContents(forest, 0, None, 0, 0);
    FlatAllHung(forest, 0, None, 0, 0);
    FlatAllListed(forest, 0, None, 0, 0);
  }

  /** The child lists are a part of the inverse of the parent links. */
  lemma ChildrenPointBack(forest: seq<Node>, i: nat, c: nat)
    requires var es := Flattened(forest); i < |es| && c in Kids(es[i])
    ensures var es := Flattened(forest); i < c < |es| && es[c].parent == Some(i)
  {
    var es, ps := Flattened(forest), Order(forest);
    FlattenedIsPreorder(forest);
    assert Lists(es, ps, i, 0);
    assert Above(ps[i], ps[c]);
    assert Hangs(es, ps, c, None, 0, 0);
    var j: nat :| j < c && Nearest(ps, j, c) && es[c].parent == Some(j);
    assert Within(ps[i], ps[j]) && |ps[j]| < |ps[c]|;
    assert ps[i] == ps[j];
    Distinct(ps, i, j);
  }

  lemma {:induction false} BeforeIrreflexive(p: Path)
    ensures !Before(p, p)
  {
    if p != [] { BeforeIrreflexive(p[1..]); }
  }

  lemma Distinct(ps: seq<Path>, i: nat, j: nat)
    requires Ascending(ps) && i < |ps| && j < |ps| && ps[i] == ps[j]
    ensures i == j
  {
    BeforeIrreflexive(ps[i]);
  }

  // ---------- a subtree is a block ----------

  /** The entries under entry `i` are the block that starts at `i` and is as long as its node
      has useful nodes. */
  ghost predicate Blocked(ps: seq<Path>, i: nat, size: nat)
    requires i < |ps|
  {
    forall j :: 0 <= j < |ps| ==> (Within(ps[i], ps[j]) <==> i <= j < i + size)
  }

  lemma WithinHead(p: Path, q: Path)
    requires p != []
    ensures Within(p, q) ==> q != [] && q[0] == p[0]
  {
  }

  lemma LeftBlocked(k: nat, ps: seq<Path>, ps': seq<Path>, i: nat, size: nat)
    requires i < |ps| && Blocked(ps, i, size) && i + size <= |ps| && Starts(ps', k + 1)
    ensures Blocked(Below(k, ps) + ps', i, size)
  {
    var qs := Below(k, ps) + ps';
    forall j | 0 <= j < |qs| ensures Within(qs[i], qs[j]) <==> i <= j < i + size {
      if j < |ps| {
        BelowWithin(k, ps[i], ps[j]);
      } else {
        assert qs[i][0] == k && qs[j] == ps'[j - |ps|];
        WithinHead(qs[i], qs[j]);
      }
    }
  }

  lemma RightBlocked(k: nat, ps: seq<Path>, ps': seq<Path>, i: nat, size: nat)
    requires i < |ps'| && Blocked(ps', i, size) && Starts(ps', k + 1)
    ensures Blocked(Below(k, ps) + ps', |ps| + i, size)
  {
  }

  lemma {:induction false} PathsBlocked(n: Node, i: nat)
    requires i < |Paths(n)|
    ensures i + Size(At(n, Paths(n)[i])) <= |Paths(n)|
    ensures Blocked(Paths(n), i, Size(At(n, Paths(n)[i])))
    decreases n, 0, 0
  {
    SameLength(n);
    PathsFromStarts(n.children, 0);
    var ps := PathsFrom(n.children, 0);
    if !n.useful {
      assert Paths(n) == ps;
      PathsFromBlocked(n.children, 0, i);
    } else if i > 0 {
      PathsFromBlocked(n.children, 0, i - 1);
      assert Paths(n) == [[]] + ps && Paths(n)[i] == ps[i - 1];
    }
  }

  lemma {:induction false} PathsFromBlocked(nodes: seq<Node>, k: nat, i: nat)
    requires k <= |nodes| && i < |PathsFrom(nodes, k)|
    ensures var ps := PathsFrom(nodes, k);
      i + Size(AtForest(nodes, ps[i])) <= |ps| && Blocked(ps, i, Size(AtForest(nodes, ps[i])))
    decreases nodes, 1, |nodes| - k
  {
    var ps, ps' := Paths(nodes[k]), PathsFrom(nodes, k + 1);
    PathsFromStarts(nodes, k + 1);
    if i < |ps| {
      PathsBlocked(nodes[k], i);
      assert ([k] + ps[i])[1..] == ps[i];
      LeftBlocked(k, ps, ps', i, Size(At(nodes[k], ps[i])));
    } else {
      PathsFromBlocked(nodes, k + 1, i - |ps|);
      RightBlocked(k, ps, ps', i - |ps|, Size(AtForest(nodes, ps'[i - |ps|])));
    }
  }
}
