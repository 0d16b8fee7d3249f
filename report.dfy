/** The text of the review report that `generate_report` assembles. */
module Report {
  import opened Seqs

  const Title := "Code Review Report:\n\n"
  const QualityHeading := "1. Code Quality Suggestions:\n"
  const NoIssuesLine := "No issues found with naming, style, or documentation.\n"
  const ComplexityHeading := "\n2. Cyclomatic Complexity: "
  const PerformanceHeading := "\n3. Performance Analysis:\n"

  /** The line that lists one suggestion. */
  function Bullet(s: string): string {
    "- " + s + "\n"
  }

  /** One bullet line per suggestion, in order. */
  function BulletList(xs: seq<string>): string {
    if xs == [] then "" else BulletList(xs[..|xs| - 1]) + Bullet(xs[|xs| - 1])
  }

  /** The first section: the bullet list, or the fixed line when there is nothing to say. */
  function QualitySection(xs: seq<string>): string {
    if xs == [] then NoIssuesLine else BulletList(xs)
  }

  predicate IsDigit(c: char) {
    '0' <= c <= '9'
  }

  function DigitChar(d: nat): (c: char)
    requires d < 10
    ensures IsDigit(c)
  {
    ('0' as int + d) as char
  }

  /** Python's `str(n)` for a non-negative integer: its decimal digits, with no leading zero. */
  function Decimal(n: nat): (r: string)
    ensures |r| >= 1 && forall i :: 0 <= i < |r| ==> IsDigit(r[i])
    ensures r[0] == '0' ==> n == 0
  {
    if n < 10 then [DigitChar(n)] else Decimal(n / 10) + [DigitChar(n % 10)]
  }

  /** The number a string of decimal digits denotes. */
  function DecimalValue(s: string): nat
    requires forall i :: 0 <= i < |s| ==> IsDigit(s[i])
  {
    if s == [] then 0
    else assert IsDigit(s[|s| - 1]); DecimalValue(s[..|s| - 1]) * 10 + (s[|s| - 1] as int - '0' as int)
  }

  /** The complexity figure in the report reads back as the number it renders. */
  lemma {:induction false} DecimalRoundTrip(n: nat)
    ensures DecimalValue(Decimal(n)) == n
  {
    var r := Decimal(n);
    if n >= 10 {
      DecimalRoundTrip(n / 10);
      assert r[..|r| - 1] == Decimal(n / 10);
    }
  }

  /** The whole report for the given suggestions, complexity and performance text. */
  function ReviewReport(suggestions: seq<string>, complexity: nat, performance: string): string {
    Title + QualityHeading + QualitySection(suggestions)
    + ComplexityHeading + Decimal(complexity) + "\n"
    + PerformanceHeading + performance
  }

  lemma {:induction false} BulletListAppend(a: seq<string>, b: seq<string>)
    ensures BulletList(a + b) == BulletList(a) + BulletList(b)
    decreases |b|
  {
    if b == [] {
      AppendEmpty(a);
    } else {
      AppendInit(a, b);
      BulletListAppend(a, b[..|b| - 1]);
    }
  }

  /** Listing `a`, then `x`, then `b` puts the line of `x` between the lines of `a` and those of `b`. */
  lemma BulletListSplit(a: seq<string>, x: string, b: seq<string>)
    ensures BulletList(a + [x] + b) == BulletList(a) + Bullet(x) + BulletList(b)
  {
    BulletListAppend(a + [x], b);
    AppendInit(a, [x]);
    Regroup(BulletList(a + [x] + b), BulletList(a + [x]), BulletList(b), BulletList(a), Bullet(x));
  }

  /** Suggestion `i` is listed on its own line, after the lines of the suggestions before it
      and before the lines of those after it. */
  lemma BulletListAt(xs: seq<string>, i: nat)
    requires i < |xs|
    ensures BulletList(xs) == BulletList(xs[..i]) + Bullet(xs[i]) + BulletList(xs[i + 1..])
  {
    SplitAt(xs, i);
    BulletListSplit(xs[..i], xs[i], xs[i + 1..]);
  }

  /** Suggestion `i` is listed, as its own bullet line, right after the title, the first
      heading and the bullet lines of the suggestions before it. */
  lemma ReportListsSuggestion(suggestions: seq<string>, complexity: nat, performance: string, i: nat)
    requires i < |suggestions|
    ensures var r := ReviewReport(suggestions, complexity, performance);
      var at := |Title + QualityHeading + BulletList(suggestions[..i])|;
      at + |Bullet(suggestions[i])| <= |r| && r[at..at + |Bullet(suggestions[i])|] == Bullet(suggestions[i])
  {
    var x, b := Title + QualityHeading, Bullet(suggestions[i]);
    var head := x + QualitySection(suggestions);
    var tail := ComplexityHeading + Decimal(complexity) + "\n" + PerformanceHeading + performance;
    RegroupTail(head, ComplexityHeading, Decimal(complexity), "\n", PerformanceHeading, performance);
    BulletListAt(suggestions, i);
    var p, q := BulletList(suggestions[..i]), BulletList(suggestions[i + 1..]);
    RegroupMiddle(x, p, b, q);
    Infix(x + p, b, q);
    SliceInPrefix(head, tail, |x + p|, |x + p| + |b|);
  }

  /** The report closes with the complexity line and then the performance section, whose
      text is passed through unchanged. */
  lemma ReportEnds(suggestions: seq<string>, complexity: nat, performance: string)
    ensures var r := ReviewReport(suggestions, complexity, performance);
      var tail := ComplexityHeading + Decimal(complexity) + "\n" + PerformanceHeading + performance;
      |tail| <= |r| && r[|r| - |tail|..] == tail && r[|r| - |performance|..] == performance
  {
    var head := Title + QualityHeading + QualitySection(suggestions);
    RegroupTail(head, ComplexityHeading, Decimal(complexity), "\n", PerformanceHeading, performance);
    Suffix(head, ComplexityHeading + Decimal(complexity) + "\n" + PerformanceHeading + performance);
    Suffix(head + ComplexityHeading + Decimal(complexity) + "\n" + PerformanceHeading, performance);
  }

  /** The report opens with the title and the first heading, followed by the "no issues"
      line when there are no suggestions. */
  lemma ReportBegins(suggestions: seq<string>, complexity: nat, performance: string)
    ensures var r := ReviewReport(suggestions, complexity, performance);
      var opening := Title + QualityHeading;
      |opening| <= |r| && r[..|opening|] == opening &&
      (suggestions == [] ==> |opening + NoIssuesLine| <= |r| && r[|opening|..|opening + NoIssuesLine|] == NoIssuesLine)
  {
    var opening := Title + QualityHeading;
    var head := opening + QualitySection(suggestions);
    var tail := ComplexityHeading + Decimal(complexity) + "\n" + PerformanceHeading + performance;
    RegroupTail(head, ComplexityHeading, Decimal(complexity), "\n", PerformanceHeading, performance);
    AppendEmpty(tail);
    Infix(opening, QualitySection(suggestions), tail);
    SliceInPrefix(head, tail, 0, |opening|);
    Prefix(opening, QualitySection(suggestions));
  }
}
