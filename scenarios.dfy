/** Concrete programs on which the scanner and the complexity counter are expected to
    behave in a particular way, stated over the model. */
module Scenarios {
  import opened Wrappers
  import opened Syntax
  import opened Traversal
  import opened Style
  import opened Complexity

  /** A placeholder leaf: a name, a constant or `pass`. */
  const Leaf := Other([])

  /** `depth` conditionals, each the only statement of the one above it, around `pass`:
      `if a:` / ` if b:` / `  if c:` / ... */
  function Chain(depth: nat): Node {
    if depth == 0 then Leaf else If(Leaf, [Chain(depth - 1)], [])
  }

  /** The nesting level of a chain is its depth. */
  lemma {:induction false} ChainLevel(depth: nat)
    ensures NestingLevel(Chain(depth)) == depth
  {
    if depth > 0 {
      ChainLevel(depth - 1);
    }
  }

  /** A chain of `depth` conditionals holds `depth - 3` conditionals nested too deeply (the
      outer ones), and none when `depth` is at most 3. */
  lemma {:induction false} ChainDeepIfs(depth: nat)
    ensures TreeCountWhere(IsDeepIf, [Chain(depth)]) == if depth > MaxNesting then depth - MaxNesting else 0
  {
    var n := Chain(depth);
    SizeByChildren(n);
    assert [n][1..] == [];
    if depth == 0 {
      assert Children(n) == [];
    } else {
      ChainDeepIfs(depth - 1);
      ChainLevel(depth);
      assert Children(n) == [Leaf] + [Chain(depth - 1)];
      TreeCountWhereAppend(IsDeepIf, [Leaf], [Chain(depth - 1)]);
      SizeByChildren(Leaf);
      assert [Leaf][1..] == [];
      assert Children(Leaf) == [];
    }
  }

  /** Four nested conditionals draw exactly one nesting message; three draw none. */
  lemma NestingThreshold()
    ensures multiset(Texts(QualitySuggestions(Ok(Module([Chain(4)])))))[NestedMessage] == 1
    ensures multiset(Texts(QualitySuggestions(Ok(Module([Chain(3)])))))[NestedMessage] == 0
  {
    ReportsEachDeepIf(Module([Chain(4)]));
    ChainDeepIfs(4);
    ReportsEachDeepIf(Module([Chain(3)]));
    ChainDeepIfs(3);
  }

  /** `def DoSomething(x): ...` with a short body and no docstring draws the missing-docstring
      suggestion and the naming suggestion, in that order, and nothing else. */
  lemma UndocumentedCapitalisedFunction()
    ensures var f := FunctionDef("DoSomething", None, 1, Leaf, [Leaf], []);
      FunctionSuggestions(f) == [AboutFunction("DoSomething", MissingDocstring), AboutFunction("DoSomething", NotSnakeCase)]
  {
  }

  /** The length rule fires from fifty-one statements on: a body of exactly fifty is fine. */
  lemma LengthThreshold(f: Node)
    requires f.FunctionDef?
    ensures LengthSuggestions(f) == [] <==> |f.body| <= 50
    ensures |f.body| == 51 ==> LengthSuggestions(f) == [AboutFunction(f.name, TooLong)]
  {
  }

  /** `x = a and b and c`: one boolean operation with three operands scores one. */
  lemma AndChainScoresOne()
    ensures Score(Module([Other([BoolOp(And, [Leaf, Leaf, Leaf])])])) == 1
  {
    var op := BoolOp(And, [Leaf, Leaf, Leaf]);
    var stmt := Other([op]);
    ScoreCountsTree(Module([stmt]));
    SizeByChildren(Leaf);
    assert Children(Leaf) == [];
    assert TreeCountWhere(IsDecisionPoint, [Leaf]) == 0 by {
      assert [Leaf][1..] == [];
    }
    assert TreeCountWhere(IsDecisionPoint, [Leaf, Leaf]) == 0 by {
      assert [Leaf, Leaf][1..] == [Leaf];
    }
    assert TreeCountWhere(IsDecisionPoint, [Leaf, Leaf, Leaf]) == 0 by {
      assert [Leaf, Leaf, Leaf][1..] == [Leaf, Leaf];
    }
    BoolOpCountsOnce(And, [Leaf, Leaf, Leaf]);
    SizeByChildren(stmt);
    assert Children(stmt) == [op];
    assert [stmt][1..] == [];
  }
}
