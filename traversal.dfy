/** `ast.walk`, the traversal both the style scanner and the complexity counter iterate
    over, and counting over what it yields. */
module Traversal {
  import opened Syntax
  import opened Seqs

  /** `ast.walk` on a queue of pending nodes: the node at the head of the queue is yielded
      and its children are appended to the tail, so the tree comes out breadth-first. */
  function Bfs(queue: seq<Node>): (r: seq<Node>)
    ensures |r| == ForestSize(queue)
    decreases ForestSize(queue)
  {
    if queue == [] then []
    else
      SizeByChildren(queue[0]);
      ForestSizeAppend(queue[1..], Children(queue[0]));
      [queue[0]] + Bfs(queue[1..] + Children(queue[0]))
  }

  /** The nodes `ast.walk(tree)` yields after the module itself. The module node is left
      out: it is none of the kinds the review tool tests for. */
  function Walk(m: Module): seq<Node> {
    Bfs(m.body)
  }

  /** Every node of the subtrees rooted at the elements of `s`, with multiplicity,
      gathered depth-first: "the nodes of the tree" without any traversal order. */
  function Nodes(s: seq<Node>): multiset<Node>
    decreases ForestSize(s)
  {
    if s == [] then multiset{}
    else
      SizeByChildren(s[0]);
      multiset{s[0]} + Nodes(Children(s[0])) + Nodes(s[1..])
  }

  lemma {:induction false} NodesAppend(a: seq<Node>, b: seq<Node>)
    ensures Nodes(a + b) == Nodes(a) + Nodes(b)
    decreases |a|
  {
    if a == [] {
      AppendEmpty(b);
    } else {
      AppendTail(a, b);
      NodesAppend(a[1..], b);
    }
  }

  /** The walk yields every node of the tree exactly once. */
  lemma {:induction false} BfsYieldsEveryNodeOnce(queue: seq<Node>)
    ensures multiset(Bfs(queue)) == Nodes(queue)
    decreases ForestSize(queue)
  {
    if queue != [] {
      var n := queue[0];
      SizeByChildren(n);
      ForestSizeAppend(queue[1..], Children(n));
      BfsYieldsEveryNodeOnce(queue[1..] + Children(n));
      NodesAppend(queue[1..], Children(n));
    }
  }

  lemma WalkYieldsEveryNodeOnce(m: Module)
    ensures multiset(Walk(m)) == Nodes(m.body)
    ensures forall n :: n in Walk(m) <==> n in Nodes(m.body)
  {
    BfsYieldsEveryNodeOnce(m.body);
  }

  /** How many elements of `s` satisfy `p`. */
  function CountWhere(p: Node -> bool, s: seq<Node>): nat {
    if s == [] then 0 else (if p(s[0]) then 1 else 0) + CountWhere(p, s[1..])
  }

  lemma {:induction false} CountWhereAppend(p: Node -> bool, a: seq<Node>, b: seq<Node>)
    ensures CountWhere(p, a + b) == CountWhere(p, a) + CountWhere(p, b)
  {
    if a == [] {
      AppendEmpty(b);
    } else {
      AppendTail(a, b);
      CountWhereAppend(p, a[1..], b);
    }
  }

  lemma {:induction false} CountWhereZero(p: Node -> bool, s: seq<Node>)
    ensures CountWhere(p, s) == 0 <==> forall n :: n in s ==> !p(n)
  {
    if s != [] {
      CountWhereZero(p, s[1..]);
      assert forall n :: n in s <==> n == s[0] || n in s[1..];
    }
  }

  /** How many nodes of the subtrees rooted at the elements of `s` satisfy `p`, counted
      over the tree structure. */
  function TreeCountWhere(p: Node -> bool, s: seq<Node>): nat
    decreases ForestSize(s)
  {
    if s == [] then 0
    else
      SizeByChildren(s[0]);
      (if p(s[0]) then 1 else 0) + TreeCountWhere(p, Children(s[0])) + TreeCountWhere(p, s[1..])
  }

  lemma {:induction false} TreeCountWhereAppend(p: Node -> bool, a: seq<Node>, b: seq<Node>)
    ensures TreeCountWhere(p, a + b) == TreeCountWhere(p, a) + TreeCountWhere(p, b)
    decreases |a|
  {
    if a == [] {
      AppendEmpty(b);
    } else {
      AppendTail(a, b);
      TreeCountWhereAppend(p, a[1..], b);
    }
  }

  /** Counting along the walk gives the same number as counting over the tree. */
  lemma {:induction false} BfsCountsTree(p: Node -> bool, queue: seq<Node>)
    ensures CountWhere(p, Bfs(queue)) == TreeCountWhere(p, queue)
    decreases ForestSize(queue)
  {
    if queue != [] {
      var n := queue[0];
      SizeByChildren(n);
      ForestSizeAppend(queue[1..], Children(n));
      BfsCountsTree(p, queue[1..] + Children(n));
      TreeCountWhereAppend(p, queue[1..], Children(n));
    }
  }
}
