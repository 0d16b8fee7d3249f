/** The Python syntax tree as the review tool sees it: a closed set of node kinds, the
    children of each node in the order Python's `ast.iter_child_nodes` yields them, and
    the result of parsing a source text. */
module Syntax {
  import opened Wrappers
  import opened Seqs

  /** The two boolean operators. In Python's tree each is a node of its own (`ast.And`,
      `ast.Or`) hanging under the `BoolOp` that uses it. */
  datatype BoolOperator = And | Or

  /** One node of the tree. The kinds the review tool tests with `isinstance` are explicit;
      every other node (expressions, simple statements, `async` variants, except handlers,
      the `arguments` node, ...) is `Other` with its children.

      A `FunctionDef` carries what the tool reads from it: its name, the result of
      `ast.get_docstring` (None when there is none), the number of positional parameters
      (`len(node.args.args)`) and its body; `signature` is the `arguments` node and
      `decorators` holds everything walked after the body (decorators, the return
      annotation, type parameters). */
  datatype Node =
    | FunctionDef(name: string, docstring: Option<string>, posArgs: nat,
                  signature: Node, body: seq<Node>, decorators: seq<Node>)
    | If(test: Node, body: seq<Node>, orelse: seq<Node>)
    | For(target: Node, iter: Node, body: seq<Node>, orelse: seq<Node>)
    | While(test: Node, body: seq<Node>, orelse: seq<Node>)
    | Try(body: seq<Node>, handlers: seq<Node>, orelse: seq<Node>, finalbody: seq<Node>)
    | With(items: seq<Node>, body: seq<Node>)
    | BoolOp(op: BoolOperator, values: seq<Node>)
    | Operator(op: BoolOperator)
    | Other(children: seq<Node>)

  /** The `ast.Module` that `ast.parse` returns. */
  datatype Module = Module(body: seq<Node>)

  /** What `ast.parse` does with a source text: raise `SyntaxError` (its message is kept
      as an opaque string) or return the module. */
  datatype ParseResult = SyntaxErr(msg: string) | Ok(tree: Module)

  /** The direct children of a node, in field order, as `ast.iter_child_nodes` yields them. */
  function Children(n: Node): seq<Node> {
    match n
    case FunctionDef(_, _, _, signature, body, decorators) => [signature] + body + decorators
    case If(test, body, orelse) => [test] + body + orelse
    case For(target, iter, body, orelse) => [target, iter] + body + orelse
    case While(test, body, orelse) => [test] + body + orelse
    case Try(body, handlers, orelse, finalbody) => body + handlers + orelse + finalbody
    case With(items, body) => items + body
    case BoolOp(op, values) => [Operator(op)] + values
    case Operator(_) => []
    case Other(children) => children
  }

  /** Number of nodes in the subtree rooted at `n` (a termination measure for walks). */
  function Size(n: Node): nat {
    match n
    case FunctionDef(_, _, _, signature, body, decorators) =>
      1 + Size(signature) + ForestSize(body) + ForestSize(decorators)
    case If(test, body, orelse) => 1 + Size(test) + ForestSize(body) + ForestSize(orelse)
    case For(target, iter, body, orelse) =>
      1 + Size(target) + Size(iter) + ForestSize(body) + ForestSize(orelse)
    case While(test, body, orelse) => 1 + Size(test) + ForestSize(body) + ForestSize(orelse)
    case Try(body, handlers, orelse, finalbody) =>
      1 + ForestSize(body) + ForestSize(handlers) + ForestSize(orelse) + ForestSize(finalbody)
    case With(items, body) => 1 + ForestSize(items) + ForestSize(body)
    case BoolOp(_, values) => 2 + ForestSize(values)
    case Operator(_) => 1
    case Other(children) => 1 + ForestSize(children)
  }

  /** Number of nodes in all the subtrees rooted at the elements of `s`. */
  function ForestSize(s: seq<Node>): nat {
    if s == [] then 0 else Size(s[0]) + ForestSize(s[1..])
  }

  lemma {:induction false} ForestSizeAppend(a: seq<Node>, b: seq<Node>)
    ensures ForestSize(a + b) == ForestSize(a) + ForestSize(b)
  {
    if a == [] {
      AppendEmpty(b);
    } else {
      AppendTail(a, b);
      ForestSizeAppend(a[1..], b);
    }
  }

  /** A node counts once, and its subtree is itself plus the subtrees of its children. */
  lemma SizeByChildren(n: Node)
    ensures Size(n) == 1 + ForestSize(Children(n))
  {
    match n
    case FunctionDef(_, _, _, signature, body, decorators) =>
      ForestSizeAppend([signature] + body, decorators);
      ForestSizeAppend([signature], body);
    case If(test, body, orelse) =>
      ForestSizeAppend([test] + body, orelse);
      ForestSizeAppend([test], body);
    case For(target, iter, body, orelse) =>
      ForestSizeAppend([target, iter] + body, orelse);
      ForestSizeAppend([target, iter], body);
      assert [target, iter][1..] == [iter];
    case While(test, body, orelse) =>
      ForestSizeAppend([test] + body, orelse);
      ForestSizeAppend([test], body);
    case Try(body, handlers, orelse, finalbody) =>
      ForestSizeAppend(body + handlers + orelse, finalbody);
      ForestSizeAppend(body + handlers, orelse);
      ForestSizeAppend(body, handlers);
    case With(items, body) =>
      ForestSizeAppend(items, body);
    case BoolOp(op, values) =>
      ForestSizeAppend([Operator(op)], values);
    case Operator(_) =>
    case Other(children) =>
  }
}
