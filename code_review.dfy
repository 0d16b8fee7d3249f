/** The review tool itself: an object holding the submitted source text and the list of
    suggestions its scanner appends to, with the scanner, the nesting helper, the
    complexity counter and the report assembler as its methods. */
module CodeReview {
  import opened Wrappers
  import opened Syntax
  import opened Traversal
  import opened Style
  import opened Complexity
  import opened Report
  import opened Seqs

  class CodeReviewTool {
    /** The submitted source text. */
    var code: string
    /** The suggestions collected so far, oldest first. */
    var suggestions: seq<string>
    /** `ast.parse`: a deterministic function of the text that is not part of this model. */
    const parse: string -> ParseResult

    /** A tool for `code`, with no suggestions yet. */
    constructor (code: string, parse: string -> ParseResult)
      ensures this.code == code && this.parse == parse && suggestions == []
    {
      this.code := code;
      this.parse := parse;
      suggestions := [];
    }

    /** `evaluate_code_quality`: parse the text; on a syntax error append one suggestion
        and stop; otherwise walk the tree and append what each node gives rise to. Only
        the suggestion list changes, and only by appending. */
    method EvaluateCodeQuality()
      modifies this`suggestions
      ensures suggestions == old(suggestions) + Texts(QualitySuggestions(parse(code)))
    {
      var parsed := parse(code);
      if parsed.SyntaxErr? {
        suggestions := suggestions + [Text(SyntaxError(parsed.msg))];
        return;
      }
      var nodes := Walk(parsed.tree);
      AppendEmpty(old(suggestions));
      for i := 0 to |nodes|
        invariant suggestions == old(suggestions) + Texts(Scan(nodes[..i]))
      {
        VisitNode(nodes[i]);
        ScanStep(nodes, i);
        AppendTexts(old(suggestions), Scan(nodes[..i]), NodeSuggestions(nodes[i]));
      }
      TakeAll(nodes);
    }

    /** One pass of the walk loop of `evaluate_code_quality`: the docstring, naming and
        length checks on a function definition, then the nesting check on a conditional. */
    method VisitNode(node: Node)
      modifies this`suggestions
      ensures suggestions == old(suggestions) + Texts(NodeSuggestions(node))
    {
      ghost var made: seq<Suggestion> := [];
      if node.FunctionDef? {
        CheckDocstring(node);
        CheckNaming(node);
        AppendTexts(old(suggestions), DocstringSuggestions(node), NamingSuggestions(node));
        CheckLength(node);
        AppendTexts(old(suggestions), DocstringSuggestions(node) + NamingSuggestions(node), LengthSuggestions(node));
        made := FunctionSuggestions(node);
      } else {
        AppendNoText(old(suggestions));
      }
      if node.If? {
        CheckNesting(node);
      } else {
        AppendNoText(suggestions);
      }
      AppendTexts(old(suggestions), made, NestingSuggestions(node));
    }

    /** The docstring check: a missing (or empty) docstring, else a docstring that never
        mentions "param" on a function with positional parameters. */
    method CheckDocstring(node: Node)
      requires node.FunctionDef?
      modifies this`suggestions
      ensures suggestions == old(suggestions) + Texts(DocstringSuggestions(node))
    {
      if !HasDocstring(node) {
        suggestions := suggestions + [Text(AboutFunction(node.name, MissingDocstring))];
        AppendOneText(old(suggestions), AboutFunction(node.name, MissingDocstring));
      } else if !Contains(node.docstring.value, "param") && node.posArgs > 0 {
        suggestions := suggestions + [Text(AboutFunction(node.name, UndocumentedParameters))];
        AppendOneText(old(suggestions), AboutFunction(node.name, UndocumentedParameters));
      } else {
        AppendNoText(suggestions);
      }
    }

    /** The naming check: the name must match `^[a-z_][a-z0-9_]*$`. */
    method CheckNaming(node: Node)
      requires node.FunctionDef?
      modifies this`suggestions
      ensures suggestions == old(suggestions) + Texts(NamingSuggestions(node))
    {
      if !MatchesSnakeCase(node.name) {
        suggestions := suggestions + [Text(AboutFunction(node.name, NotSnakeCase))];
        AppendOneText(old(suggestions), AboutFunction(node.name, NotSnakeCase));
      } else {
        AppendNoText(suggestions);
      }
    }

    /** The length check: more than fifty top-level statements in the body. */
    method CheckLength(node: Node)
      requires node.FunctionDef?
      modifies this`suggestions
      ensures suggestions == old(suggestions) + Texts(LengthSuggestions(node))
    {
      if |node.body| > MaxBodyStatements {
        suggestions := suggestions + [Text(AboutFunction(node.name, TooLong))];
        AppendOneText(old(suggestions), AboutFunction(node.name, TooLong));
      } else {
        AppendNoText(suggestions);
      }
    }

    /** The nesting check on a conditional, through `get_nesting_level`. */
    method CheckNesting(node: Node)
      requires node.If?
      modifies this`suggestions
      ensures suggestions == old(suggestions) + Texts(NestingSuggestions(node))
    {
      var nestedLevel := GetNestingLevel(node);
      if nestedLevel > MaxNesting {
        suggestions := suggestions + [Text(NestedConditions)];
        AppendOneText(old(suggestions), NestedConditions);
      } else {
        AppendNoText(suggestions);
      }
    }

    /** `get_nesting_level`: follow the first statement of each `If` body downwards,
        counting the `If`s passed through. */
    method GetNestingLevel(node: Node) returns (level: nat)
      ensures level == NestingLevel(node)
    {
      var current: Option<Node> := Some(node);
      level := 0;
      while current.Some? && current.value.If?
        invariant level + LevelFrom(current) == NestingLevel(node)
        decreases LevelFrom(current)
      {
        var n := current.value;
        current := if |n.body| > 0 then Some(n.body[0]) else None;
        level := level + 1;
      }
    }

    /** `calculate_cyclomatic_complexity`: parse the text again (a syntax error is not
        caught and propagates as a failure) and count the decision points the walk yields. */
    method CalculateCyclomaticComplexity() returns (r: Result<nat, string>)
      ensures parse(code).SyntaxErr? ==> r == Failure(parse(code).msg)
      ensures parse(code).Ok? ==> r == Success(Score(parse(code).tree))
    {
      var parsed := parse(code);
      if parsed.SyntaxErr? {
        return Failure(parsed.msg);
      }
      var nodes := Walk(parsed.tree);
      var complexity := 0;
      for i := 0 to |nodes|
        invariant complexity == CountWhere(IsDecisionPoint, nodes[..i])
      {
        var node := nodes[i];
        TakeOneMore(nodes, i);
        CountWhereAppend(IsDecisionPoint, nodes[..i], [node]);
        if node.If? || node.For? || node.While? || node.Operator? || node.Try? || node.With? {
          complexity := complexity + 1;
        }
      }
      TakeAll(nodes);
      return Success(complexity);
    }

    /** `generate_report`: run the scanner, then the complexity counter (whose syntax error
        aborts the report after the scanner has already appended its suggestion), then
        assemble the report from all collected suggestions, the score and the text of the
        performance stage. */
    method GenerateReport(performance: string) returns (r: Result<string, string>)
      modifies this`suggestions
      ensures suggestions == old(suggestions) + Texts(QualitySuggestions(parse(code)))
      ensures parse(code).SyntaxErr? ==> r == Failure(parse(code).msg)
      ensures parse(code).Ok? ==> r == Success(ReviewReport(suggestions, Score(parse(code).tree), performance))
    {
      EvaluateCodeQuality();
      var complexity := CalculateCyclomaticComplexity();
      if complexity.Failure? {
        return Failure(complexity.error);
      }
      var report := AssembleReport(suggestions, complexity.value, performance);
      return Success(report);
    }
  }

  /** The text assembly at the end of `generate_report`: the title, the bullet list of the
      suggestions (or the fixed line when there are none), the complexity line and the
      performance section, appended piece by piece. */
  method AssembleReport(suggestions: seq<string>, complexity: nat, performance: string) returns (report: string)
    ensures report == ReviewReport(suggestions, complexity, performance)
  {
    report := Title;
    report := report + QualityHeading;
    if |suggestions| > 0 {
      for i := 0 to |suggestions|
        invariant report == Title + QualityHeading + BulletList(suggestions[..i])
      {
        TakeOneMore(suggestions, i);
        report := report + Bullet(suggestions[i]);
      }
      TakeAll(suggestions);
    } else {
      report := report + NoIssuesLine;
    }
    report := report + ComplexityHeading + Decimal(complexity) + "\n";
    report := report + PerformanceHeading + performance;
  }

  /** The nesting level still to be counted from the current node of the walk down the
      first statements; nothing once the walk has stepped off an empty body. */
  function LevelFrom(current: Option<Node>): nat {
    if current.Some? then NestingLevel(current.value) else 0
  }

  /** A fresh tool whose scanner runs twice: the second run appends the same suggestions
      again after the first run's. */
  method ScanTwice(code: string, parse: string -> ParseResult) returns (once: seq<string>, twice: seq<string>)
    ensures once == Texts(QualitySuggestions(parse(code)))
    ensures twice == once + once
  {
    var tool := new CodeReviewTool(code, parse);
    tool.EvaluateCodeQuality();
    once := tool.suggestions;
    tool.EvaluateCodeQuality();
    twice := tool.suggestions;
  }

  /** On a fresh tool, a text that does not parse yields exactly one suggestion, the syntax
      error message after the "Syntax Error: " prefix. */
  method ScanBrokenSource(code: string, parse: string -> ParseResult) returns (found: seq<string>)
    requires parse(code).SyntaxErr?
    ensures |found| == 1 && found[0] == SyntaxErrorPrefix + parse(code).msg
  {
    var tool := new CodeReviewTool(code, parse);
    tool.EvaluateCodeQuality();
    found := tool.suggestions;
  }

  /** Two fresh tools given the same text and the same performance text produce the same
      report, which lists the scan's suggestions once. */
  method FreshReportsAgree(code: string, parse: string -> ParseResult, performance: string)
    returns (first: Result<string, string>, second: Result<string, string>)
    ensures first == second
    ensures parse(code).SyntaxErr? ==> first == Failure(parse(code).msg)
    ensures parse(code).Ok? ==>
      first == Success(ReviewReport(Texts(QualitySuggestions(parse(code))), Score(parse(code).tree), performance))
  {
    AppendEmpty(Texts(QualitySuggestions(parse(code))));
    var one := new CodeReviewTool(code, parse);
    first := one.GenerateReport(performance);
    var other := new CodeReviewTool(code, parse);
    second := other.GenerateReport(performance);
  }

  /** A second report from the same tool lists every suggestion of the scan twice, since
      the suggestion list is never cleared. */
  method ReportTwice(code: string, parse: string -> ParseResult, performance: string)
    returns (first: Result<string, string>, second: Result<string, string>)
    ensures parse(code).Ok? ==>
      var found := Texts(QualitySuggestions(parse(code)));
      var score := Score(parse(code).tree);
      first == Success(ReviewReport(found, score, performance)) &&
      second == Success(ReviewReport(found + found, score, performance))
  {
    AppendEmpty(Texts(QualitySuggestions(parse(code))));
    var tool := new CodeReviewTool(code, parse);
    first := tool.GenerateReport(performance);
    second := tool.GenerateReport(performance);
  }
}
