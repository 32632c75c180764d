/** Flattening of a native UI tree, as the Android and iOS observers do it: useless nodes are
    elided and every element keeps the index of its nearest useful ancestor.  The recursive
    traversal that appends to one shared list is proved against the list specified here. */
module UiTree {
  import opened Wrappers

  /** `useful` is the platform's verdict on a node; `content` stands for everything else the
      element copies from it.  `Missing` is an absent child. */
  datatype Node = Missing | Node(useful: bool, content: int, children: seq<Node>)

  datatype Element = Element(content: int, depth: nat, parent: Option<nat>, children: Option<seq<nat>>)

  // ---------- the flat list as a function ----------

  function Size(n: Node): nat {
    if n.Missing? then 0 else (if n.useful then 1 else 0) + SizeAll(n.children)
  }

  function SizeAll(nodes: seq<Node>): nat {
    if nodes == [] then 0 else Size(nodes[0]) + SizeAll(nodes[1..])
  }

  predicate Useful(n: Node) { n.Node? && n.useful }

  /** Indices of the nodes of `nodes` that are useful themselves, the first element of the
      list being at `base`. */
  function Direct(nodes: seq<Node>, base: nat): seq<nat> {
    if nodes == [] then []
    else (if Useful(nodes[0]) then [base] else []) + Direct(nodes[1..], base + Size(nodes[0]))
  }

  function Own(n: Node, parent: Option<nat>, depth: nat, base: nat): Element
    requires n.Node?
  {
    var direct := Direct(n.children, base + 1);
    Element(n.content, depth, parent, if direct == [] then None else Some(direct))
  }

  /** The elements of one tree whose first element gets index `base`. */
  function Flat(n: Node, parent: Option<nat>, depth: nat, base: nat): seq<Element> {
    if n.Missing? then []
    else if n.useful then [Own(n, parent, depth, base)] + FlatAll(n.children, Some(base), depth + 1, base + 1)
    else FlatAll(n.children, parent, depth, base)
  }

  function FlatAll(nodes: seq<Node>, parent: Option<nat>, depth: nat, base: nat): seq<Element> {
    if nodes == [] then []
    else Flat(nodes[0], parent, depth, base) + FlatAll(nodes[1..], parent, depth, base + Size(nodes[0]))
  }

  lemma {:induction false} FlatSize(n: Node, parent: Option<nat>, depth: nat, base: nat)
    ensures |Flat(n, parent, depth, base)| == Size(n)
    decreases n, 1
  {
    if n.Node? {
      FlatAllSize(n.children, Some(base), depth + 1, base + 1);
      FlatAllSize(n.children, parent, depth, base);
    }
  }

  lemma {:induction false} FlatAllSize(nodes: seq<Node>, parent: Option<nat>, depth: nat, base: nat)
    ensures |FlatAll(nodes, parent, depth, base)| == SizeAll(nodes)
    decreases nodes, 0
  {
    if nodes != [] {
      FlatSize(nodes[0], parent, depth, base);
      FlatAllSize(nodes[1..], parent, depth, base + Size(nodes[0]));
    }
  }

  // ---------- the list the observers build ----------

  /** The first remaining node moves from what is to come to what is there. */
  lemma OneFlattened(elements: seq<Element>, indices: seq<nat>, nodes: seq<Node>, k: nat, parent: Option<nat>,
      depth: nat)
    requires k < |nodes|
    ensures var base, flat := |elements|, Flat(nodes[k], parent, depth, |elements|);
      var direct: seq<nat> := if Useful(nodes[k]) then [base] else [];
      && elements + FlatAll(nodes[k..], parent, depth, base)
         == elements + flat + FlatAll(nodes[k + 1..], parent, depth, |elements + flat|)
      && indices + Direct(nodes[k..], base) == indices + direct + Direct(nodes[k + 1..], |elements + flat|)
  {
    FlatSize(nodes[k], parent, depth, |elements|);
    assert nodes[k..][1..] == nodes[k + 1..];
  }

  class Flattener {
    var elements: seq<Element>

    constructor ()
      ensures elements == []
    {
      elements := [];
    }

    /** Appends the elements of `n`; the result is the index of its own element, or -1. */
    method Traverse(n: Node, parent: Option<nat>, depth: nat) returns (index: int)
      modifies this
      ensures elements == old(elements) + Flat(n, parent, depth, old(|elements|))
      ensures index == if Useful(n) then old(|elements|) else -1
      decreases n, 1
    {
      index := -1;
      if n.Missing? { return; }
      if n.useful {
        elements := elements + [Element(n.content, depth, parent, None)];
        index := |elements| - 1;
      }
      var nextParent := if index != -1 then Some(index) else parent;
      var nextDepth := if index != -1 then depth + 1 else depth;
      var indices := TraverseAll(n.children, nextParent, nextDepth);
      if index != -1 && |indices| > 0 {
        elements := elements[index := elements[index].(children := Some(indices))];
      }
    }

    /** Appends the elements of all `nodes`; the result lists those of the nodes themselves. */
    method TraverseAll(nodes: seq<Node>, parent: Option<nat>, depth: nat) returns (indices: seq<nat>)
      modifies this
      ensures elements == old(elements) + FlatAll(nodes, parent, depth, old(|elements|))
      ensures indices == Direct(nodes, old(|elements|))
      decreases nodes, 0
    {
      indices := [];
      var k := 0;
      while k < |nodes|
        invariant 0 <= k <= |nodes|
        invariant elements + FlatAll(nodes[k..], parent, depth, |elements|)
               == old(elements) + FlatAll(nodes, parent, depth, old(|elements|))
        invariant indices + Direct(nodes[k..], |elements|) == Direct(nodes, old(|elements|))
      {
        OneFlattened(elements, indices, nodes, k, parent, depth);
        var child := Traverse(nodes[k], parent, depth);
        if child != -1 { indices := indices + [child]; }
        k := k + 1;
      }
    }
  }
}
