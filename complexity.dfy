/** The complexity score of `calculate_cyclomatic_complexity`: a flat count of the walked
    nodes of seven kinds, with no +1 baseline. */
module Complexity {
  import opened Syntax
  import opened Traversal

  /** The kinds counted: `If`, `For`, `While`, `Try`, `With`, and the `And`/`Or` operator
      nodes. A `BoolOp` itself is not counted; its operator node is, so a chain such as
      `a and b and c` (one `BoolOp` with three values) counts once. */
  predicate IsDecisionPoint(n: Node) {
    n.If? || n.For? || n.While? || n.Try? || n.With? || n.Operator?
  }

  /** The score of a parsed module: the number of walked nodes that are decision points. */
  function Score(m: Module): nat {
    CountWhere(IsDecisionPoint, Walk(m))
  }

  /** The score counts every decision point of the tree once, whatever the walk order. */
  lemma ScoreCountsTree(m: Module)
    ensures Score(m) == TreeCountWhere(IsDecisionPoint, m.body)
  {
    BfsCountsTree(IsDecisionPoint, m.body);
  }

  /** The score is 0 exactly when the tree holds none of the seven kinds: there is no
      baseline of 1. */
  lemma ScoreZeroExactly(m: Module)
    ensures Score(m) == 0 <==> forall n :: n in Nodes(m.body) ==> !IsDecisionPoint(n)
  {
    CountWhereZero(IsDecisionPoint, Walk(m));
    WalkYieldsEveryNodeOnce(m);
  }

  /** A boolean operation adds exactly one, through its operator node, to what its operands
      contribute, however many operands it chains. */
  lemma BoolOpCountsOnce(op: BoolOperator, values: seq<Node>)
    ensures TreeCountWhere(IsDecisionPoint, [BoolOp(op, values)]) == 1 + TreeCountWhere(IsDecisionPoint, values)
  {
    var n := BoolOp(op, values);
    assert Children(n) == [Operator(op)] + values;
    TreeCountWhereAppend(IsDecisionPoint, [Operator(op)], values);
    assert Children(Operator(op)) == [];
    assert [Operator(op)][1..] == [];
    assert [n][1..] == [];
  }
}
