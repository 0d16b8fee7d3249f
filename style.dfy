/** The style rules of the review tool's scanner, as functions on the syntax tree: the
    suggestions each node gives rise to, the nesting heuristic for conditionals, and what
    the whole scan of a parse result appends.

    The suggestion texts are written in pieces (a fixed head, the quoted name, a tail made
    of its head and its last word) so that proofs can tell them apart by a few characters
    near either end; `SuggestionTexts` states each text as one whole literal. */
module Style {
  import opened Wrappers
  import opened Syntax
  import opened Traversal
  import opened Seqs

  const SyntaxErrorPrefix := "Syntax Error: "
  /** The nesting message. */
  const NestedMessage := "Function " + "has nested conditions more than 3 levels deep. Consider " + "refactoring."
  /** A function body may hold this many top-level statements before it is "too long". */
  const MaxBodyStatements := 50
  /** A conditional may sit this deep before it is reported. */
  const MaxNesting := 3

  /** The four suggestions about one function definition, in the order they are checked. */
  datatype Finding = MissingDocstring | UndocumentedParameters | NotSnakeCase | TooLong

  /** What follows the quoted function name in each suggestion. */
  function Tail(k: Finding): string {
    TailHead(k) + LastWord(k)
  }

  /** Each tail up to its last word. */
  function TailHead(k: Finding): string {
    match k
    case MissingDocstring => "' is missing a docstring. Explain what the function "
    case UndocumentedParameters => "' has a docstring, but consider documenting the "
    case NotSnakeCase => "' should follow snake_case naming "
    case TooLong => "' is too long. Consider splitting into smaller "
  }

  /** The last word of each tail. */
  function LastWord(k: Finding): string {
    match k
    case MissingDocstring => "does."
    case UndocumentedParameters => "parameters."
    case NotSnakeCase => "convention."
    case TooLong => "functions."
  }

  /** One suggestion of the scanner, before it is rendered as text. */
  datatype Suggestion =
    | SyntaxError(msg: string)
    | AboutFunction(name: string, finding: Finding)
    | NestedConditions

  /** The text the scanner appends for a suggestion; `msg` is the text of Python's
      `SyntaxError`, kept opaque. */
  function Text(s: Suggestion): string {
    match s
    case SyntaxError(msg) => SyntaxErrorPrefix + msg
    case AboutFunction(name, k) => "Function '" + name + Tail(k)
    case NestedConditions => NestedMessage
  }

  /** The text of each suggestion, as one run of literal pieces: the head, the quoted name,
      and the tail joined just before its last word. */
  lemma SyntaxErrorText(msg: string)
    ensures Text(SyntaxError(msg)) == "Syntax Error: " + msg
  {
  }

  lemma MissingDocstringText(name: string)
    ensures Text(AboutFunction(name, MissingDocstring))
      == "Function '" + name + "' is missing a docstring. Explain what the function " + "does."
  {
    Assoc("Function '" + name, TailHead(MissingDocstring), LastWord(MissingDocstring));
  }

  lemma UndocumentedParametersText(name: string)
    ensures Text(AboutFunction(name, UndocumentedParameters))
      == "Function '" + name + "' has a docstring, but consider documenting the " + "parameters."
  {
    Assoc("Function '" + name, TailHead(UndocumentedParameters), LastWord(UndocumentedParameters));
  }

  lemma NotSnakeCaseText(name: string)
    ensures Text(AboutFunction(name, NotSnakeCase))
      == "Function '" + name + "' should follow snake_case naming " + "convention."
  {
    Assoc("Function '" + name, TailHead(NotSnakeCase), LastWord(NotSnakeCase));
  }

  lemma TooLongText(name: string)
    ensures Text(AboutFunction(name, TooLong))
      == "Function '" + name + "' is too long. Consider splitting into smaller " + "functions."
  {
    Assoc("Function '" + name, TailHead(TooLong), LastWord(TooLong));
  }

  lemma NestedText()
    ensures Text(NestedConditions)
      == "Function " + "has nested conditions more than 3 levels deep. Consider " + "refactoring."
  {
  }

  /** The texts of a sequence of suggestions, in order. */
  function Texts(s: seq<Suggestion>): (r: seq<string>)
    ensures |r| == |s|
  {
    if s == [] then [] else Texts(s[..|s| - 1]) + [Text(s[|s| - 1])]
  }

  lemma {:induction false} TextsAppend(a: seq<Suggestion>, b: seq<Suggestion>)
    ensures Texts(a + b) == Texts(a) + Texts(b)
    decreases |b|
  {
    if b == [] {
      AppendEmpty(a);
    } else {
      AppendInit(a, b);
      TextsAppend(a, b[..|b| - 1]);
    }
  }

  lemma {:induction false} TextsAt(s: seq<Suggestion>, i: nat)
    requires i < |s|
    ensures Texts(s)[i] == Text(s[i])
  {
    if i < |s| - 1 {
      TextsAt(s[..|s| - 1], i);
    }
  }

  /** Appending the text of `x` to a list that ends with the texts of `made` gives a list
      that ends with the texts of `made + [x]`. */
  lemma AppendText(front: seq<string>, made: seq<Suggestion>, x: Suggestion)
    ensures front + Texts(made) + [Text(x)] == front + Texts(made + [x])
  {
    AppendInit(made, [x]);
    Assoc(front, Texts(made), [Text(x)]);
  }

  lemma AppendNoText(front: seq<string>)
    ensures front + Texts([]) == front
  {
    AppendEmpty(front);
  }

  lemma AppendOneText(front: seq<string>, x: Suggestion)
    ensures front + [Text(x)] == front + Texts([x])
  {
    AppendText(front, [], x);
    AppendEmpty(front);
  }

  /** Appending the texts of `b` to a list that ends with the texts of `a`. */
  lemma AppendTexts(front: seq<string>, a: seq<Suggestion>, b: seq<Suggestion>)
    ensures front + Texts(a) + Texts(b) == front + Texts(a + b)
  {
    TextsAppend(a, b);
    Assoc(front, Texts(a), Texts(b));
  }

  /** The third character from the end of each tail (distinct for the four findings) and
      the second from the end (never the 'g' that ends the nesting message). */
  lemma TailKey(k: Finding)
    ensures |LastWord(k)| >= 3 && LastWord(k)[|LastWord(k)| - 2] != 'g'
  {
  }

  /** The third character from the end of the last word tells the four findings apart. */
  lemma LastWordInjective(k1: Finding, k2: Finding)
    requires |LastWord(k1)| >= 3 && |LastWord(k2)| >= 3
    requires LastWord(k1)[|LastWord(k1)| - 3] == LastWord(k2)[|LastWord(k2)| - 3]
    ensures k1 == k2
  {
  }

  lemma CharFromEnd(a: string, t: string, j: nat)
    requires j < |t|
    ensures (a + t)[|a + t| - 1 - j] == t[|t| - 1 - j]
  {
  }

  lemma CharFromStart(a: string, t: string, j: nat)
    requires j < |a|
    ensures (a + t)[j] == a[j]
  {
  }

  lemma AboutFunctionMarks(name: string, k: Finding)
    ensures var t := Text(AboutFunction(name, k)); t[0] == 'F' && t[|t| - 2] != 'g'
  {
    CharFromStart("Function '" + name, Tail(k), 0);
    CharFromStart("Function '", name, 0);
    TextEndsWithLastWord(name, k);
    CharFromEnd("Function '" + name + TailHead(k), LastWord(k), 1);
    TailKey(k);
  }

  lemma NestedMarks()
    ensures NestedMessage[0] == 'F' && NestedMessage[|NestedMessage| - 2] == 'g'
  {
    var mid := "has nested conditions more than 3 levels deep. Consider ";
    CharFromStart("Function " + mid, "refactoring.", 0);
    CharFromStart("Function ", mid, 0);
    CharFromEnd("Function " + mid, "refactoring.", 1);
  }

  /** The first character tells a syntax error from the rest; the second from the end
      tells the nesting message from a message about a function. */
  lemma TextMarks(s: Suggestion)
    ensures Text(s)[0] == if s.SyntaxError? then 'S' else 'F'
    ensures !s.SyntaxError? ==> (Text(s)[|Text(s)| - 2] == 'g' <==> s.NestedConditions?)
  {
    match s {
      case SyntaxError(msg) =>
        CharFromStart(SyntaxErrorPrefix, msg, 0);
      case AboutFunction(name, k) =>
        AboutFunctionMarks(name, k);
      case NestedConditions =>
        NestedMarks();
    }
  }

  lemma TextEndsWithLastWord(name: string, k: Finding)
    ensures Text(AboutFunction(name, k)) == "Function '" + name + TailHead(k) + LastWord(k)
  {
    Assoc("Function '" + name, TailHead(k), LastWord(k));
  }

  /** Two strings that end with the last words of two findings name the same finding. */
  lemma LastWordsAgree(a1: string, k1: Finding, a2: string, k2: Finding)
    requires a1 + LastWord(k1) == a2 + LastWord(k2)
    ensures k1 == k2
  {
    TailKey(k1);
    TailKey(k2);
    SameFromEnd(a1, LastWord(k1), a2, LastWord(k2), 2);
    LastWordInjective(k1, k2);
  }

  /** Two texts about functions that are equal name the same finding. */
  lemma FindingFromText(n1: string, k1: Finding, n2: string, k2: Finding)
    requires Text(AboutFunction(n1, k1)) == Text(AboutFunction(n2, k2))
    ensures k1 == k2
  {
    TextEndsWithLastWord(n1, k1);
    TextEndsWithLastWord(n2, k2);
    LastWordsAgree("Function '" + n1 + TailHead(k1), k1, "Function '" + n2 + TailHead(k2), k2);
  }

  lemma AboutFunctionInjective(n1: string, k1: Finding, n2: string, k2: Finding)
    requires Text(AboutFunction(n1, k1)) == Text(AboutFunction(n2, k2))
    ensures n1 == n2 && k1 == k2
  {
    FindingFromText(n1, k1, n2, k2);
    SameMiddle("Function '", n1, n2, Tail(k1));
  }

  /** Different suggestions never render as the same text, so the text list can be read
      back as the suggestions that produced it. */
  lemma TextInjective(s1: Suggestion, s2: Suggestion)
    requires Text(s1) == Text(s2)
    ensures s1 == s2
  {
    TextMarks(s1);
    TextMarks(s2);
    if s1.SyntaxError? && s2.SyntaxError? {
      DropPrefix(SyntaxErrorPrefix, s1.msg);
      DropPrefix(SyntaxErrorPrefix, s2.msg);
    } else if s1.AboutFunction? && s2.AboutFunction? {
      AboutFunctionInjective(s1.name, s1.finding, s2.name, s2.finding);
    }
  }

  lemma TextsMembership(s: seq<Suggestion>, x: Suggestion)
    ensures Text(x) in Texts(s) <==> x in s
  {
    if Text(x) in Texts(s) {
      var i :| 0 <= i < |s| && Texts(s)[i] == Text(x);
      TextsAt(s, i);
      TextInjective(x, s[i]);
    }
    if x in s {
      var i :| 0 <= i < |s| && s[i] == x;
      TextsAt(s, i);
    }
  }

  /** Python's truth value of the docstring: None and the empty string are false. */
  predicate HasDocstring(f: Node)
    requires f.FunctionDef?
  {
    f.docstring.Some? && f.docstring.value != ""
  }

  predicate OccursAt(s: string, sub: string, i: nat) {
    i + |sub| <= |s| && s[i..i + |sub|] == sub
  }

  /** Python's substring test `sub in s`. */
  predicate Contains(s: string, sub: string) {
    exists i :: 0 <= i <= |s| - |sub| && OccursAt(s, sub, i)
  }

  predicate IsLeadChar(c: char) {
    'a' <= c <= 'z' || c == '_'
  }

  predicate IsTailChar(c: char) {
    'a' <= c <= 'z' || '0' <= c <= '9' || c == '_'
  }

  /** `re.match(r'^[a-z_][a-z0-9_]*$', name)` succeeds. The starred class is greedy and
      cannot hold a newline, and `$` (without MULTILINE) accepts the end of the string or
      a single newline just before it. */
  predicate MatchesSnakeCase(name: string) {
    |name| > 0 && IsLeadChar(name[0]) && MatchesRest(name[1..])
  }

  /** `[a-z0-9_]*$` matches all of `s`. */
  predicate MatchesRest(s: string) {
    s == [] || s == "\n" || (IsTailChar(s[0]) && MatchesRest(s[1..]))
  }

  lemma {:induction false} MatchesRestExactly(s: string)
    requires '\n' !in s
    ensures MatchesRest(s) <==> forall i :: 0 <= i < |s| ==> IsTailChar(s[i])
  {
    if s != [] {
      assert s != "\n" by { assert s[0] != '\n'; }
      assert '\n' !in s[1..] by { assert forall c :: c in s[1..] ==> c in s; }
      MatchesRestExactly(s[1..]);
      assert forall i :: 1 <= i < |s| ==> s[i] == s[1..][i - 1];
    }
  }

  /** For a name without a newline (every Python identifier), the naming rule fails exactly
      when the name is empty, starts with something other than a lower-case letter or `_`,
      or contains a character outside `[a-z0-9_]`. */
  lemma SnakeCaseExactly(name: string)
    requires '\n' !in name
    ensures MatchesSnakeCase(name) <==>
      |name| > 0 && IsLeadChar(name[0]) && forall i :: 1 <= i < |name| ==> IsTailChar(name[i])
  {
    if |name| > 0 {
      assert '\n' !in name[1..] by { assert forall c :: c in name[1..] ==> c in name; }
      MatchesRestExactly(name[1..]);
      assert forall i :: 1 <= i < |name| ==> name[i] == name[1..][i - 1];
    }
  }

  /** The rule behind each finding, stated on its own. */
  predicate Raises(f: Node, k: Finding)
    requires f.FunctionDef?
  {
    match k
    case MissingDocstring => !HasDocstring(f)
    case UndocumentedParameters => HasDocstring(f) && !Contains(f.docstring.value, "param") && f.posArgs > 0
    case NotSnakeCase => !MatchesSnakeCase(f.name)
    case TooLong => |f.body| > MaxBodyStatements
  }

  /** The docstring check: missing, else parameters undocumented, else nothing. */
  function DocstringSuggestions(f: Node): seq<Suggestion>
    requires f.FunctionDef?
  {
    if !HasDocstring(f) then [AboutFunction(f.name, MissingDocstring)]
    else if !Contains(f.docstring.value, "param") && f.posArgs > 0 then [AboutFunction(f.name, UndocumentedParameters)]
    else []
  }

  function NamingSuggestions(f: Node): seq<Suggestion>
    requires f.FunctionDef?
  {
    if !MatchesSnakeCase(f.name) then [AboutFunction(f.name, NotSnakeCase)] else []
  }

  function LengthSuggestions(f: Node): seq<Suggestion>
    requires f.FunctionDef?
  {
    if |f.body| > MaxBodyStatements then [AboutFunction(f.name, TooLong)] else []
  }

  /** The suggestions the scanner makes about one function definition, in the order of its
      checks: docstring, name, length. Each finding appears exactly when its rule fires, so
      never both docstring findings at once. */
  function FunctionSuggestions(f: Node): seq<Suggestion>
    requires f.FunctionDef?
  {
    DocstringSuggestions(f) + NamingSuggestions(f) + LengthSuggestions(f)
  }

  /** Each finding about a function definition is made exactly when its rule fires, and
      never both docstring findings. */
  lemma FunctionSuggestionsExactly(f: Node)
    requires f.FunctionDef?
    ensures forall s :: s in FunctionSuggestions(f) <==> s.AboutFunction? && s.name == f.name && Raises(f, s.finding)
    ensures !(AboutFunction(f.name, MissingDocstring) in FunctionSuggestions(f) &&
              AboutFunction(f.name, UndocumentedParameters) in FunctionSuggestions(f))
    ensures |FunctionSuggestions(f)| <= 3
  {
  }

  /** `get_nesting_level`: the number of `If` nodes met by starting at `n` and repeatedly
      moving to the first statement of the body, stopping at a non-`If` or an empty body. */
  function NestingLevel(n: Node): (level: nat)
    ensures n.If? <==> level >= 1
  {
    if n.If? then 1 + (if |n.body| > 0 then NestingLevel(n.body[0]) else 0) else 0
  }

  /** The node reached from `n` after `k` steps of moving from an `If` to the first statement
      of its body; None once a step meets a non-`If` or an empty body. */
  function Descend(n: Node, k: nat): Option<Node> {
    if k == 0 then Some(n)
    else if n.If? && |n.body| > 0 then Descend(n.body[0], k - 1)
    else None
  }

  predicate IfAt(n: Node, k: nat) {
    Descend(n, k).Some? && Descend(n, k).value.If?
  }

  /** The nesting level is the length of the chain of `If`s along first statements. */
  lemma {:induction false} NestingLevelIsIfChain(n: Node)
    ensures forall k :: 0 <= k < NestingLevel(n) ==> IfAt(n, k)
    ensures !IfAt(n, NestingLevel(n))
  {
    if n.If? && |n.body| > 0 {
      var child := n.body[0];
      NestingLevelIsIfChain(child);
      forall k | 1 <= k < NestingLevel(n)
        ensures IfAt(n, k)
      {
        assert Descend(n, k) == Descend(child, k - 1);
        assert IfAt(child, k - 1);
      }
      assert Descend(n, NestingLevel(n)) == Descend(child, NestingLevel(child));
    }
  }

  /** A conditional reported as nested too deeply. */
  predicate IsDeepIf(n: Node) {
    n.If? && NestingLevel(n) > MaxNesting
  }

  /** The nesting check on a conditional. */
  function NestingSuggestions(n: Node): seq<Suggestion> {
    if IsDeepIf(n) then [NestedConditions] else []
  }

  /** The suggestions the scanner makes on visiting one node. */
  function NodeSuggestions(n: Node): seq<Suggestion> {
    (if n.FunctionDef? then FunctionSuggestions(n) else []) + NestingSuggestions(n)
  }

  /** The suggestions made while visiting `nodes` in order, `visit` giving those of one node. */
  function ScanWith(visit: Node -> seq<Suggestion>, nodes: seq<Node>): seq<Suggestion> {
    if nodes == [] then []
    else ScanWith(visit, nodes[..|nodes| - 1]) + visit(nodes[|nodes| - 1])
  }

  /** The suggestions the scanner makes while visiting `nodes` in order. */
  function Scan(nodes: seq<Node>): seq<Suggestion> {
    ScanWith(NodeSuggestions, nodes)
  }

  /** Scanning one more node appends that node's suggestions. */
  lemma ScanStep(nodes: seq<Node>, i: nat)
    requires i < |nodes|
    ensures Scan(nodes[..i + 1]) == Scan(nodes[..i]) + NodeSuggestions(nodes[i])
  {
    TakeOneMore(nodes, i);
  }

  /** Everything `evaluate_code_quality` appends for a given parse result: one syntax-error
      suggestion, or the scan of the walked tree. */
  function QualitySuggestions(p: ParseResult): seq<Suggestion> {
    match p
    case SyntaxErr(msg) => [SyntaxError(msg)]
    case Ok(tree) => Scan(Walk(tree))
  }

  lemma {:induction false} ScanMembership(visit: Node -> seq<Suggestion>, nodes: seq<Node>, x: Suggestion)
    ensures x in ScanWith(visit, nodes) <==> exists i :: 0 <= i < |nodes| && x in visit(nodes[i])
  {
    if nodes != [] {
      var init := nodes[..|nodes| - 1];
      ScanMembership(visit, init, x);
      assert forall i :: 0 <= i < |init| ==> init[i] == nodes[i];
    }
  }

  /** `n` is a definition of a function called `name` that breaks the rule of `k`. */
  predicate Offends(n: Node, name: string, k: Finding) {
    n.FunctionDef? && n.name == name && Raises(n, k)
  }

  /** A node's own suggestions hold finding `k` about `name` exactly when it offends. */
  lemma NodeFindingExactly(n: Node, name: string, k: Finding)
    ensures AboutFunction(name, k) in NodeSuggestions(n) <==> Offends(n, name, k)
  {
    if n.FunctionDef? {
      FunctionSuggestionsExactly(n);
    }
  }

  lemma ScanFindingExactly(nodes: seq<Node>, name: string, k: Finding)
    ensures AboutFunction(name, k) in Scan(nodes) <==> exists n :: n in nodes && Offends(n, name, k)
  {
    var x := AboutFunction(name, k);
    ScanMembership(NodeSuggestions, nodes, x);
    forall i | 0 <= i < |nodes|
      ensures x in NodeSuggestions(nodes[i]) <==> Offends(nodes[i], name, k)
    {
      NodeFindingExactly(nodes[i], name, k);
    }
    if exists n :: n in nodes && Offends(n, name, k) {
      var n :| n in nodes && Offends(n, name, k);
      var i :| 0 <= i < |nodes| && nodes[i] == n;
    }
  }

  /** On a parsed module, the text of finding `k` about a function called `name` is appended
      exactly when some function definition of that name, anywhere in the tree, breaks the
      rule of `k`. */
  lemma ScanReportsFindingExactly(m: Module, name: string, k: Finding)
    ensures Text(AboutFunction(name, k)) in Texts(QualitySuggestions(Ok(m))) <==>
      exists f :: f in Nodes(m.body) && Offends(f, name, k)
  {
    var nodes := Walk(m);
    TextsMembership(Scan(nodes), AboutFunction(name, k));
    ScanFindingExactly(nodes, name, k);
    WalkYieldsEveryNodeOnce(m);
  }

  lemma NodeNestedCount(n: Node)
    ensures multiset(NodeSuggestions(n))[NestedConditions] == if IsDeepIf(n) then 1 else 0
  {
    var fs := if n.FunctionDef? then FunctionSuggestions(n) else [];
    if n.FunctionDef? {
      FunctionSuggestionsExactly(n);
    }
    assert NestedConditions !in fs;
    assert multiset(fs)[NestedConditions] == 0;
  }

  /** When every node gives rise to one copy of `x` if it satisfies `p` and to none
      otherwise, a scan holds one copy of `x` per node that satisfies `p`. */
  lemma {:induction false} ScanWithCounts(visit: Node -> seq<Suggestion>, p: Node -> bool, x: Suggestion, nodes: seq<Node>)
    requires forall n :: multiset(visit(n))[x] == if p(n) then 1 else 0
    ensures multiset(ScanWith(visit, nodes))[x] == CountWhere(p, nodes)
  {
    if nodes != [] {
      var init, last := nodes[..|nodes| - 1], nodes[|nodes| - 1];
      ScanWithCounts(visit, p, x, init);
      InitLast(nodes);
      CountWhereAppend(p, init, [last]);
      assert CountWhere(p, [last]) == if p(last) then 1 else 0 by {
        assert [last][1..] == [];
      }
    }
  }

  /** The scan makes one nesting suggestion per conditional nested too deeply, and no other. */
  lemma ScanCountsDeepIfs(nodes: seq<Node>)
    ensures multiset(Scan(nodes))[NestedConditions] == CountWhere(IsDeepIf, nodes)
  {
    forall n ensures multiset(NodeSuggestions(n))[NestedConditions] == if IsDeepIf(n) then 1 else 0 {
      NodeNestedCount(n);
    }
    ScanWithCounts(NodeSuggestions, IsDeepIf, NestedConditions, nodes);
  }

  /** On a parsed module, the nesting message is appended once for each conditional in the
      tree whose nesting level exceeds three. */
  lemma ReportsEachDeepIf(m: Module)
    ensures multiset(Texts(QualitySuggestions(Ok(m))))[NestedMessage] == TreeCountWhere(IsDeepIf, m.body)
  {
    var s := Scan(Walk(m));
    ScanCountsDeepIfs(Walk(m));
    BfsCountsTree(IsDeepIf, m.body);
    TextsCount(s, NestedConditions);
    assert Text(NestedConditions) == NestedMessage;
  }

  lemma DocstringOffenceCount(f: Node, k: Finding)
    requires f.FunctionDef?
    ensures multiset(DocstringSuggestions(f))[AboutFunction(f.name, k)]
      == if (k.MissingDocstring? || k.UndocumentedParameters?) && Raises(f, k) then 1 else 0
  {
  }

  lemma NamingOffenceCount(f: Node, k: Finding)
    requires f.FunctionDef?
    ensures multiset(NamingSuggestions(f))[AboutFunction(f.name, k)] == if k.NotSnakeCase? && Raises(f, k) then 1 else 0
  {
  }

  lemma LengthOffenceCount(f: Node, k: Finding)
    requires f.FunctionDef?
    ensures multiset(LengthSuggestions(f))[AboutFunction(f.name, k)] == if k.TooLong? && Raises(f, k) then 1 else 0
  {
  }

  /** A node's own suggestions hold one copy of finding `k` about `name` if it offends, and
      none otherwise. */
  lemma NodeOffenceCount(n: Node, name: string, k: Finding)
    ensures multiset(NodeSuggestions(n))[AboutFunction(name, k)] == if Offends(n, name, k) then 1 else 0
  {
    var x := AboutFunction(name, k);
    assert multiset(NestingSuggestions(n))[x] == 0;
    if n.FunctionDef? && n.name == name {
      DocstringOffenceCount(n, k);
      NamingOffenceCount(n, k);
      LengthOffenceCount(n, k);
    } else if n.FunctionDef? {
      FunctionSuggestionsExactly(n);
      assert x !in FunctionSuggestions(n);
    }
  }

  /** On a parsed module, the text of finding `k` about a function called `name` is appended
      once for each function definition of that name in the tree that breaks the rule: two
      offending methods of the same name in two classes draw it twice. */
  lemma ReportsEachOffence(m: Module, name: string, k: Finding)
    ensures multiset(Texts(QualitySuggestions(Ok(m))))[Text(AboutFunction(name, k))]
      == TreeCountWhere(n => Offends(n, name, k), m.body)
  {
    var x := AboutFunction(name, k);
    var offends := n => Offends(n, name, k);
    forall n ensures multiset(NodeSuggestions(n))[x] == if offends(n) then 1 else 0 {
      NodeOffenceCount(n, name, k);
    }
    ScanWithCounts(NodeSuggestions, offends, x, Walk(m));
    BfsCountsTree(offends, m.body);
    TextsCount(Scan(Walk(m)), x);
  }

  /** Rendering keeps the number of copies of each suggestion. */
  lemma {:induction false} TextsCount(s: seq<Suggestion>, x: Suggestion)
    ensures multiset(Texts(s))[Text(x)] == multiset(s)[x]
  {
    if s != [] {
      var init, last := s[..|s| - 1], s[|s| - 1];
      InitLast(s);
      TextsCount(init, x);
      if Text(last) == Text(x) {
        TextInjective(last, x);
      }
    }
  }
}
