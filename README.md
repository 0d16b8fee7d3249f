# Code review tool: the static analysis half

This project models the static half of the `CodeReviewTool` class in `core/code_review.py`.
The tool takes the text of a Python program, scans its syntax tree for style problems and
collects them as suggestion strings in its `suggestions` list. It also counts the tree's
decision points as a "cyclomatic complexity" figure. It then assembles a plain-text report
from the suggestions, the figure and the text of a performance stage.

The modules follow the parts of the tool:

- `Syntax` (`syntax.dfy`) is the part of Python's syntax tree that the tool inspects. It is
  a closed datatype: function definitions (name, docstring, number of positional
  parameters, body), `if`, `for`, `while`, `try`, `with`, boolean operations with their
  `and`/`or` operator node, and every other node as `Other` with its children. It also holds
  the result of parsing: a syntax error message or a module.
- `Traversal` (`traversal.dfy`) is `ast.walk` as a breadth-first queue. It proves that the
  walk yields every node of the tree exactly once and that counting along the walk equals
  counting over the tree.
- `Style` (`style.dfy`) holds the scanner's rules as functions. These are the docstring,
  parameter-documentation, snake_case, length and nesting rules, plus the exact texts of the
  suggestions. It also proves what the scanner finds over a whole tree.
- `Complexity` (`complexity.dfy`) is the decision-point count and its properties.
- `Report` (`report.dfy`) is the report's text and its layout.
- `CodeReview` (`code_review.dfy`) is the class itself. Its methods update the
  `suggestions` field step by step, as the source does: the walk loop, the `while` loop of
  `get_nesting_level`, the counting loop and the `+=` assembly of the report. Each method is
  proved against the specification functions of the modules above.
- `Scenarios` (`scenarios.dfy`) shows the rules on concrete trees: the nesting and length
  thresholds, a capitalised undocumented function, and an `and` chain.
- `Seqs` and `Wrappers` are small generic helpers: sequence lemmas, `Option` and `Result`.

`ast.parse` is a function given to the constructor (`parse: string -> ParseResult`). It is
deterministic, so parsing the same text twice gives the same tree, as the source's two
parses of `self.code` do. `ast.get_docstring` is the `docstring` field of a function node.

The code accumulates suggestions across calls on the same tool, so a repeated report is not
idempotent. A second `generate_report` on the same object lists every suggestion twice
(`ReportTwice`, `ScanTwice`). Idempotence holds only for fresh tools on the same text
(`FreshReportsAgree`), which is how the interface uses the class: it creates a new tool per
request (`core/code_review.py:142-144`). The model follows the code.

## Model

| member | source | states |
|---|---|---|
| CodeReview.CodeReviewTool.constructor | core/code_review.py:13-15 | A new tool holds the given text and an empty suggestion list. |
| CodeReview.CodeReviewTool.EvaluateCodeQuality | core/code_review.py:17-42 | Only the suggestion list changes (the text is outside the frame), and only by appending. The appended texts are those of the specification `QualitySuggestions`: one syntax-error suggestion, or the suggestions of each walked node in walk order. |
| CodeReview.CodeReviewTool.VisitNode | core/code_review.py:25-42 | One visit appends the function-definition suggestions (docstring, naming, length, in that order) and then the nesting suggestion of the node. |
| CodeReview.CodeReviewTool.CheckDocstring | core/code_review.py:27-31 | Appends the missing-docstring text when the docstring is absent or empty. Otherwise appends the undocumented-parameters text when "param" is absent and there is a positional parameter. Otherwise appends nothing. |
| CodeReview.CodeReviewTool.CheckNaming | core/code_review.py:33-34 | Appends the snake_case text exactly when the name fails the regular expression. |
| CodeReview.CodeReviewTool.CheckLength | core/code_review.py:36-37 | Appends the too-long text exactly when the body has more than 50 statements. |
| CodeReview.CodeReviewTool.CheckNesting | core/code_review.py:39-42 | On an `If`, appends the nesting text exactly when its nesting level exceeds 3. |
| CodeReview.CodeReviewTool.GetNestingLevel | core/code_review.py:44-50 | The `while` loop terminates and returns `NestingLevel(node)`. |
| CodeReview.CodeReviewTool.CalculateCyclomaticComplexity | core/code_review.py:52-59 | A syntax error becomes a failure carrying its message (the exception propagates). Otherwise the loop returns the number of walked decision points, `Score`. |
| CodeReview.CodeReviewTool.GenerateReport | core/code_review.py:89-105 | First appends the scan's suggestions. A syntax error then aborts the report as a failure. Otherwise the result is the report over all suggestions held so far, the score and the performance text. |
| CodeReview.AssembleReport | core/code_review.py:95-104 | The `+=` assembly yields exactly `ReviewReport` of the suggestions, the complexity and the performance text. |
| CodeReview.ScanTwice | core/code_review.py:25-42 | On one tool, a second scan appends the same suggestions again after the first scan's: the list doubles. |
| CodeReview.ScanBrokenSource | core/code_review.py:19-23 | For text that does not parse, a fresh tool ends with exactly one suggestion: "Syntax Error: " followed by the message. No other check runs. |
| CodeReview.FreshReportsAgree | core/code_review.py:89-105 | Two fresh tools on the same text and performance text give the same result. That result is a failure on a syntax error, and otherwise the report listing the scan's suggestions once. |
| CodeReview.ReportTwice | core/code_review.py:89-105 | A second report from the same tool lists the scan's suggestions twice over, with the same score. |
| Traversal.Bfs | core/code_review.py:25 | The breadth-first walk of a forest yields as many nodes as the forest holds. |
| Traversal.BfsYieldsEveryNodeOnce | core/code_review.py:25 | The walk of a forest is a permutation of the multiset of its nodes. |
| Traversal.WalkYieldsEveryNodeOnce | core/code_review.py:56 | `ast.walk` of a module yields each node of its body exactly once. A node is walked if and only if it is in the tree. |
| Traversal.BfsCountsTree | core/code_review.py:56-58 | Counting the nodes that satisfy a predicate along the walk equals counting them over the tree. |
| Traversal.CountWhereZero | core/code_review.py:56-58 | A count is zero if and only if no node satisfies the predicate. |
| Style.FunctionSuggestionsExactly | core/code_review.py:26-37 | A finding about a function definition is made if and only if its rule fires. The two docstring findings are never both made. At most three findings are made. |
| Style.SnakeCaseExactly | core/code_review.py:33 | For a name without a newline, it matches `^[a-z_][a-z0-9_]*$` if and only if it is non-empty, starts with a lower-case letter or `_`, and has only `[a-z0-9_]` after that. |
| Style.MatchesRestExactly | core/code_review.py:33 | For a string without a newline, `[a-z0-9_]*$` matches all of it if and only if every character is in `[a-z0-9_]`. |
| Style.NestingLevel | core/code_review.py:44-50 | The nesting level is at least 1 exactly for an `If`, and 0 for any other node. |
| Style.NestingLevelIsIfChain | core/code_review.py:44-50 | The nesting level is the length of the chain of `If`s reached by repeatedly taking the first body statement. |
| Style.ScanFindingExactly | core/code_review.py:25-37 | A scan of nodes holds a finding about `name` if and only if one of the nodes is a function of that name that breaks the rule. |
| Style.ScanReportsFindingExactly | core/code_review.py:25-37 | On a parsed module, the text of a finding about `name` is appended if and only if some function definition of that name, anywhere in the tree, breaks the rule. |
| Style.SyntaxErrorText | core/code_review.py:22 | The text for a parse failure is `Syntax Error: ` followed by the error's message. |
| Style.MissingDocstringText | core/code_review.py:29 | The text is `Function '<name>' is missing a docstring. Explain what the function does.` (`"Function '"`, the name, then `TailHead` and `LastWord`, joined before "does."). |
| Style.UndocumentedParametersText | core/code_review.py:31 | The text is `Function '<name>' has a docstring, but consider documenting the parameters.` (joined before "parameters."). |
| Style.NotSnakeCaseText | core/code_review.py:34 | The text is `Function '<name>' should follow snake_case naming convention.` (joined before "convention."). |
| Style.TooLongText | core/code_review.py:37 | The text is `Function '<name>' is too long. Consider splitting into smaller functions.` (joined before "functions."). |
| Style.NestedText | core/code_review.py:42 | The nesting text is the fixed `Function has nested conditions more than 3 levels deep. Consider refactoring.` (three pieces of `NestedMessage`). |
| Style.NodeOffenceCount | core/code_review.py:26-37 | A node's own suggestions hold one copy of a finding about `name` if the node is an offending definition of that name, and none otherwise. |
| Style.ReportsEachOffence | core/code_review.py:25-37 | On a parsed module, the text of a finding about `name` is appended once per offending definition of that name in the tree. Two offending methods with the same name in two classes draw it twice. |
| Style.ScanCountsDeepIfs | core/code_review.py:39-42 | A scan holds one nesting suggestion per conditional nested more than 3 deep among the scanned nodes. |
| Style.ReportsEachDeepIf | core/code_review.py:39-42 | On a parsed module, the nesting message is appended once per conditional in the tree whose nesting level exceeds 3. |
| Style.TextInjective | core/code_review.py:22-42 | Different suggestions have different texts, so a text identifies its suggestion. |
| Style.TextsMembership | core/code_review.py:22-42 | A suggestion's text is in the rendered list if and only if the suggestion was made. |
| Style.TextsCount | core/code_review.py:22-42 | Rendering keeps the number of copies of each suggestion. |
| Complexity.ScoreCountsTree | core/code_review.py:52-59 | The score is the number of decision points in the whole tree, each counted once. |
| Complexity.ScoreZeroExactly | core/code_review.py:52-59 | The score is 0 if and only if the tree holds no `If`, `For`, `While`, `Try`, `With`, `And` or `Or` node. There is no +1 baseline. |
| Complexity.BoolOpCountsOnce | core/code_review.py:57 | A boolean operation adds exactly one, through its operator node, however many operands it chains. |
| Report.Decimal | core/code_review.py:103 | `str(n)` is a non-empty string of decimal digits with no leading zero. |
| Report.DecimalRoundTrip | core/code_review.py:103 | The complexity figure in the report reads back as the number it renders. |
| Report.BulletListAppend | core/code_review.py:98-99 | Listing two runs of suggestions lists the first run, then the second. |
| Report.ReportListsSuggestion | core/code_review.py:97-99 | Every suggestion appears as its own `"- " + s + "\n"` line, right after the lines of the suggestions before it. |
| Report.ReportBegins | core/code_review.py:95-101 | The report starts with the title and the first heading. With no suggestions, the "No issues found" line follows. |
| Report.ReportEnds | core/code_review.py:103-104 | The report ends with the complexity line, the performance heading and the performance text, unchanged. |
| Scenarios.ChainLevel | core/code_review.py:44-50 | A chain of `depth` conditionals, each the first statement of the one above, has nesting level `depth`. |
| Scenarios.ChainDeepIfs | core/code_review.py:39-42 | Such a chain holds `depth - 3` conditionals that are nested too deeply, and none up to depth 3. |
| Scenarios.NestingThreshold | core/code_review.py:41 | Four nested conditionals draw one nesting message; three draw none. |
| Scenarios.UndocumentedCapitalisedFunction | core/code_review.py:26-37 | `DoSomething(x)` without a docstring draws the missing-docstring finding, then the naming finding, and nothing else. |
| Scenarios.LengthThreshold | core/code_review.py:36-37 | A body of 50 statements draws no length finding; a body of 51 draws one. |
| Scenarios.AndChainScoresOne | core/code_review.py:57 | `x = a and b and c` scores one. |

## Left out

- `analyze_performance` (`core/code_review.py:61-87`) runs the user's code with `exec`, times it and formats profiler output. It is left out; its result is the `performance` string parameter of `GenerateReport`.
- `ast.parse` and `ast.get_docstring` are library calls. They are inputs: the `parse` function given to the constructor, and the `docstring` field of a function node. No Python parser is modelled.
- The text of Python's `SyntaxError` message is an opaque string.
- The model's `parse` either returns a tree or raises `SyntaxError`. Before Python 3.12, `ast.parse` raised `ValueError` on source holding a NUL byte. That exception escapes `evaluate_code_quality` (`core/code_review.py:21` catches only `SyntaxError`) with nothing appended, and the model cannot express it.
- `code_review_interface` (Streamlit UI), `app.py`, `price_checker.py` and `core/debugger.py` are user interface, network search or raw `exec`, and are not part of this model.
- The `Module` root node is not among the walked nodes. It matches none of the tested node kinds, so no suggestion or count depends on it.
- `async def`, `async for`, `async with`, `try`/`except*` and conditional expressions are not the classes the source tests with `isinstance`. They are `Other` nodes.
- Each node's children follow the field order of `ast.iter_child_nodes`. The node kinds that no rule tests keep only their children, in order, and not their Python class. A function's `arguments` node is its `signature` child. Its decorators, return annotation and type parameters are one `decorators` run after the body, which is the order in which they are walked.
- The model does not relate the `docstring` field to the first statement of the body. `ast.get_docstring` derives it from there; here they are independent inputs.
