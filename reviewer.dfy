/** The reviewer agent (codex/agents/reviewer/src/lib.rs): it gathers findings
    for every code change, then derives per-file annotated diffs, a summary
    with counts and scores, recommendations and an approval status.

    The four language-model reviews are the oracle `reviews`: given the kind
    of review and the change, it returns the findings or an error. */
module Reviewer {
  import opened Wrappers
  import Text
  import opened Counting

  datatype ReviewFocus = Security | Performance | Maintainability | Testing | Documentation | BestPractices | Architecture

  datatype Severity = Critical | High | Medium | Low | Info

  datatype Category = Security | Performance | Bug | CodeSmell | BestPractice | Documentation | Architecture | Testing

  const AllSeverities: seq<Severity> := [Critical, High, Medium, Low, Info]
  const AllCategories: seq<Category> := [
    Category.Security, Category.Performance, Bug, CodeSmell, BestPractice,
    Category.Documentation, Category.Architecture, Category.Testing]

  /** A finding, with the fields the derived reports look at. */
  datatype Finding = Finding(id: string, filePath: string, severity: Severity, category: Category)

  datatype CodeChange = CodeChange(filePath: string, oldContent: string, newContent: string, changeType: string)

  datatype ReviewRequest = ReviewRequest(
    codeChanges: seq<CodeChange>,
    requirements: Option<seq<string>>,
    context: Option<map<string, string>>,
    reviewFocus: Option<seq<ReviewFocus>>)

  /** A per-file diff without its placeholder hunk. */
  datatype AnnotatedDiff = AnnotatedDiff(filePath: string, overallScore: int, summary: string)

  datatype ReviewSummary = ReviewSummary(
    totalFindings: nat,
    bySeverity: map<Severity, nat>,
    byCategory: map<Category, nat>,
    codeQualityScore: int,
    securityScore: int,
    maintainabilityScore: int)

  datatype ApprovalStatus = Approved | ApprovedWithComments | RequiresChanges | Rejected

  datatype ReviewReport = ReviewReport(
    findings: seq<Finding>,
    annotatedDiffs: seq<AnnotatedDiff>,
    summary: ReviewSummary,
    recommendations: seq<string>,
    overallApproval: ApprovalStatus)

  datatype ReviewKind = SecurityReview | PerformanceReview | QualityReview | PracticeReview

  type Reviews = (ReviewKind, CodeChange) -> Result<seq<Finding>>

  // ---------------------------------------------------------------------
  // Counting findings

  function Severities(fs: seq<Finding>): (r: seq<Severity>)
    ensures |r| == |fs|
  {
    seq(|fs|, i requires 0 <= i < |fs| => fs[i].severity)
  }

  function Categories(fs: seq<Finding>): (r: seq<Category>)
    ensures |r| == |fs|
  {
    seq(|fs|, i requires 0 <= i < |fs| => fs[i].category)
  }

  function SeverityCount(fs: seq<Finding>, s: Severity): nat {
    Occurrences(Severities(fs), s)
  }

  function CategoryCount(fs: seq<Finding>, c: Category): nat {
    Occurrences(Categories(fs), c)
  }

  /** The findings that concern one file. */
  function ForFile(fs: seq<Finding>, path: string): (r: seq<Finding>)
    ensures |r| <= |fs|
    ensures forall f :: f in r <==> f in fs && f.filePath == path
  {
    if fs == [] then []
    else ForFile(fs[..|fs| - 1], path) + (if fs[|fs| - 1].filePath == path then [fs[|fs| - 1]] else [])
  }

  // ---------------------------------------------------------------------
  // Gathering findings

  /** The reviews one change receives: security and performance only when the
      focus asks for them, quality and best practices always. */
  function KindsFor(focus: Option<seq<ReviewFocus>>): (r: seq<ReviewKind>)
    ensures |r| >= 2 && r[|r| - 2..] == [QualityReview, PracticeReview]
  {
    (if focus.Some? && ReviewFocus.Security in focus.value then [SecurityReview] else []) +
    (if focus.Some? && ReviewFocus.Performance in focus.value then [PerformanceReview] else []) +
    [QualityReview, PracticeReview]
  }

  /** Running a list of reviews in order, stopping at the first error. */
  function RunReviews(reviews: Reviews, change: CodeChange, kinds: seq<ReviewKind>): Result<seq<Finding>> {
    if kinds == [] then Ok([])
    else
      var first :- reviews(kinds[0], change);
      var rest :- RunReviews(reviews, change, kinds[1..]);
      Ok(first + rest)
  }

  /** `review_single_change`. */
  function ReviewSingleChange(reviews: Reviews, change: CodeChange, request: ReviewRequest): Result<seq<Finding>> {
    var focus := request.reviewFocus;
    var security :- if focus.Some? && ReviewFocus.Security in focus.value then reviews(SecurityReview, change) else Ok([]);
    var performance :- if focus.Some? && ReviewFocus.Performance in focus.value then reviews(PerformanceReview, change) else Ok([]);
    var quality :- reviews(QualityReview, change);
    var practice :- reviews(PracticeReview, change);
    Ok(security + performance + quality + practice)
  }

  /** One change's findings are those of the reviews its focus selects, in
      the order security, performance, quality, best practices. */
  lemma ReviewSingleChangeRunsKinds(reviews: Reviews, change: CodeChange, request: ReviewRequest)
    ensures ReviewSingleChange(reviews, change, request) == RunReviews(reviews, change, KindsFor(request.reviewFocus))
  {
    var focus := request.reviewFocus;
    var quality := reviews(QualityReview, change);
    var practice := reviews(PracticeReview, change);
    var tail := [QualityReview, PracticeReview];
    assert tail[1..] == [PracticeReview] && tail[1..][1..] == [];
    var tailRun := RunReviews(reviews, change, tail);
    assert RunReviews(reviews, change, tail[1..]) ==
      if practice.Err? then Err(practice.error) else Ok(practice.value + []);
    assert tailRun == if quality.Err? then Err(quality.error) else if practice.Err? then Err(practice.error)
      else Ok(quality.value + (practice.value + []));
    var performance := if focus.Some? && ReviewFocus.Performance in focus.value then reviews(PerformanceReview, change) else Ok([]);
    var withPerf := if focus.Some? && ReviewFocus.Performance in focus.value then [PerformanceReview] + tail else tail;
    if withPerf != tail {
      assert withPerf[1..] == tail;
    } else if tailRun.Ok? {
      assert [] + tailRun.value == tailRun.value;
    }
    var perfRun := RunReviews(reviews, change, withPerf);
    assert perfRun == if performance.Err? then Err(performance.error) else if tailRun.Err? then Err(tailRun.error)
      else Ok(performance.value + tailRun.value);
    var security := if focus.Some? && ReviewFocus.Security in focus.value then reviews(SecurityReview, change) else Ok([]);
    var kinds := KindsFor(focus);
    if kinds != withPerf {
      assert kinds[1..] == withPerf;
    } else if perfRun.Ok? {
      assert [] + perfRun.value == perfRun.value;
    }
    assert RunReviews(reviews, change, kinds) == if security.Err? then Err(security.error) else if perfRun.Err? then Err(perfRun.error)
      else Ok(security.value + perfRun.value);
    if security.Ok? && performance.Ok? && quality.Ok? && practice.Ok? {
      assert security.value + performance.value + quality.value + practice.value ==
        security.value + (performance.value + (quality.value + (practice.value + [])));
    }
  }

  /** The findings of the changes, in change order; the first change whose
      review fails ends the run with that error. */
  function CollectFindings(reviews: Reviews, request: ReviewRequest, changes: seq<CodeChange>): Result<seq<Finding>> {
    if changes == [] then Ok([])
    else
      var earlier :- CollectFindings(reviews, request, changes[..|changes| - 1]);
      var last :- ReviewSingleChange(reviews, changes[|changes| - 1], request);
      Ok(earlier + last)
  }

  /** Gathering succeeds exactly when every change's review succeeds. */
  lemma {:induction false} CollectFindingsOk(reviews: Reviews, request: ReviewRequest, changes: seq<CodeChange>)
    ensures CollectFindings(reviews, request, changes).Ok? <==>
      forall i :: 0 <= i < |changes| ==> ReviewSingleChange(reviews, changes[i], request).Ok?
    decreases |changes|
  {
    if changes != [] {
      var prefix := changes[..|changes| - 1];
      CollectFindingsOk(reviews, request, prefix);
      assert forall i :: 0 <= i < |prefix| ==> prefix[i] == changes[i];
    }
  }

  /** An error in the first `n` changes is the error of the whole run. */
  lemma {:induction false} CollectFindingsErr(reviews: Reviews, request: ReviewRequest, changes: seq<CodeChange>, n: nat)
    requires n <= |changes|
    requires CollectFindings(reviews, request, changes[..n]).Err?
    ensures CollectFindings(reviews, request, changes) == CollectFindings(reviews, request, changes[..n])
    decreases |changes|
  {
    if n < |changes| {
      var prefix := changes[..|changes| - 1];
      assert prefix[..n] == changes[..n];
      CollectFindingsErr(reviews, request, prefix, n);
    } else {
      assert changes[..n] == changes;
    }
  }

  // ---------------------------------------------------------------------
  // Derived reports

  function Max0(x: int): int {
    if x < 0 then 0 else x
  }

  /** The annotated diff of one change: its score counts only the findings
      for its own file. */
  function DiffFor(change: CodeChange, findings: seq<Finding>): (d: AnnotatedDiff)
    ensures d.filePath == change.filePath
    ensures 0 <= d.overallScore <= 100
    ensures d.overallScore == 100 <==>
      SeverityCount(ForFile(findings, change.filePath), Critical) == 0 &&
      SeverityCount(ForFile(findings, change.filePath), High) == 0
  {
    var relevant := ForFile(findings, change.filePath);
    var critical := SeverityCount(relevant, Critical);
    var high := SeverityCount(relevant, High);
    AnnotatedDiff(change.filePath, Max0(100 - critical * 20 - high * 10),
      Text.NatToString(|relevant|) + " findings in this file")
  }

  /** Findings for other files do not change a diff. */
  lemma {:induction false} DiffIgnoresOtherFiles(change: CodeChange, findings: seq<Finding>, others: seq<Finding>)
    requires forall f :: f in others ==> f.filePath != change.filePath
    ensures DiffFor(change, findings + others) == DiffFor(change, findings)
    decreases |others|
  {
    if others != [] {
      var prefix := others[..|others| - 1];
      assert (findings + others)[..|findings + others| - 1] == findings + prefix;
      assert others[|others| - 1] in others;
      assert forall f :: f in prefix ==> f in others;
      DiffIgnoresOtherFiles(change, findings, prefix);
      assert ForFile(findings + others, change.filePath) == ForFile(findings + prefix, change.filePath);
    } else {
      assert findings + others == findings;
    }
  }

  /** The diffs of all changes, in change order. */
  function Diffs(changes: seq<CodeChange>, findings: seq<Finding>): (r: seq<AnnotatedDiff>)
    ensures |r| == |changes|
  {
    seq(|changes|, i requires 0 <= i < |changes| => DiffFor(changes[i], findings))
  }

  /** `generate_annotated_diffs`: one diff per change, in order. */
  method GenerateAnnotatedDiffs(changes: seq<CodeChange>, findings: seq<Finding>) returns (diffs: seq<AnnotatedDiff>)
    ensures diffs == Diffs(changes, findings)
  {
    diffs := [];
    for i := 0 to |changes|
      invariant |diffs| == i
      invariant forall j :: 0 <= j < i ==> diffs[j] == DiffFor(changes[j], findings)
    {
      diffs := diffs + [DiffFor(changes[i], findings)];
    }
  }

  /** The code quality score: full marks without findings, otherwise 15 off
      per critical and 5 off per high finding, never below 0. */
  function QualityScore(fs: seq<Finding>): (q: int)
    ensures 0 <= q <= 100
    ensures fs == [] ==> q == 100
  {
    if fs == [] then 100
    else Max0(100 - SeverityCount(fs, Critical) * 15 - SeverityCount(fs, High) * 5)
  }

  function SecurityScore(fs: seq<Finding>): (q: int)
    ensures 0 <= q <= 100
    ensures q == 100 <==> CategoryCount(fs, Category.Security) == 0
  {
    Max0(100 - CategoryCount(fs, Category.Security) * 20)
  }

  function MaintainabilityScore(fs: seq<Finding>): (q: int)
    ensures 0 <= q <= 100
    ensures q == 100 <==> CategoryCount(fs, CodeSmell) + CategoryCount(fs, BestPractice) == 0
  {
    Max0(100 - (CategoryCount(fs, CodeSmell) + CategoryCount(fs, BestPractice)) * 3)
  }

  /** The summary `generate_summary` returns. */
  function SummaryOf(fs: seq<Finding>): ReviewSummary {
    ReviewSummary(|fs|, Tally(Severities(fs)), Tally(Categories(fs)),
      QualityScore(fs), SecurityScore(fs), MaintainabilityScore(fs))
  }

  /** Every severity is listed in `AllSeverities`. */
  lemma SeveritiesListed(s: Severity)
    ensures s in AllSeverities
  {
    match s {
      case Critical => assert AllSeverities[0] == s;
      case High => assert AllSeverities[1] == s;
      case Medium => assert AllSeverities[2] == s;
      case Low => assert AllSeverities[3] == s;
      case Info => assert AllSeverities[4] == s;
    }
  }

  /** Every category is listed in `AllCategories`. */
  lemma CategoriesListed(c: Category)
    ensures c in AllCategories
  {
    match c {
      case Security => assert AllCategories[0] == c;
      case Performance => assert AllCategories[1] == c;
      case Bug => assert AllCategories[2] == c;
      case CodeSmell => assert AllCategories[3] == c;
      case BestPractice => assert AllCategories[4] == c;
      case Documentation => assert AllCategories[5] == c;
      case Architecture => assert AllCategories[6] == c;
      case Testing => assert AllCategories[7] == c;
    }
  }

  /** A severity occurs among the findings' severities iff some finding has it. */
  lemma SeverityOccurs(fs: seq<Finding>, s: Severity)
    ensures s in Severities(fs) <==> exists f :: f in fs && f.severity == s
  {
    if s in Severities(fs) {
      var i :| 0 <= i < |fs| && Severities(fs)[i] == s;
      assert fs[i] in fs;
    }
    if exists f :: f in fs && f.severity == s {
      var f :| f in fs && f.severity == s;
      var i :| 0 <= i < |fs| && fs[i] == f;
      assert Severities(fs)[i] == s;
    }
  }

  /** The summary's counts: per severity and per category each count is the
      number of such findings, only occurring keys are present, and both
      groupings add up to the total. */
  lemma SummaryCounts(fs: seq<Finding>)
    ensures SummaryOf(fs).totalFindings == |fs|
    ensures forall s :: Lookup(SummaryOf(fs).bySeverity, s) == SeverityCount(fs, s)
    ensures forall c :: Lookup(SummaryOf(fs).byCategory, c) == CategoryCount(fs, c)
    ensures forall s :: s in SummaryOf(fs).bySeverity <==> exists f :: f in fs && f.severity == s
    ensures Total(SummaryOf(fs).bySeverity, AllSeverities) == |fs|
    ensures Total(SummaryOf(fs).byCategory, AllCategories) == |fs|
  {
    TallyCounts(Severities(fs));
    TallyCounts(Categories(fs));
    forall s ensures s in Severities(fs) <==> exists f :: f in fs && f.severity == s {
      SeverityOccurs(fs, s);
    }
    forall s | s in Severities(fs) ensures s in AllSeverities {
      SeveritiesListed(s);
    }
    forall c | c in Categories(fs) ensures c in AllCategories {
      CategoriesListed(c);
    }
    TallyTotal(Severities(fs), AllSeverities);
    TallyTotal(Categories(fs), AllCategories);
  }

  /** `generate_summary`: one pass filling the two count maps, then the
      three clamped scores. */
  method GenerateSummary(fs: seq<Finding>) returns (summary: ReviewSummary)
    ensures summary == SummaryOf(fs)
  {
    var bySeverity: map<Severity, nat> := map[];
    var byCategory: map<Category, nat> := map[];
    for i := 0 to |fs|
      invariant bySeverity == Tally(Severities(fs[..i]))
      invariant byCategory == Tally(Categories(fs[..i]))
    {
      assert Severities(fs[..i + 1])[..i] == Severities(fs[..i]);
      assert Categories(fs[..i + 1])[..i] == Categories(fs[..i]);
      var f := fs[i];
      bySeverity := bySeverity[f.severity := Lookup(bySeverity, f.severity) + 1];
      byCategory := byCategory[f.category := Lookup(byCategory, f.category) + 1];
    }
    assert fs[..|fs|] == fs;
    summary := ReviewSummary(|fs|, bySeverity, byCategory, QualityScore(fs), SecurityScore(fs), MaintainabilityScore(fs));
  }

  const SecurityLine: string := "Security review recommended " + "before deployment"
  const CoverageLine: string := "Consider adding more " + "comprehensive test coverage"

  function CriticalLine(n: nat): string {
    "Fix " + Text.NatToString(n) + " critical issues before merging"
  }

  /** `generate_recommendations`. */
  function Recommendations(fs: seq<Finding>): (r: seq<string>)
    ensures |r| <= 3
    ensures CriticalLine(SeverityCount(fs, Critical)) in r <==> SeverityCount(fs, Critical) > 0
    ensures SecurityLine in r <==> CategoryCount(fs, Category.Security) > 0
    ensures CoverageLine in r <==> CategoryCount(fs, Category.Testing) == 0
    ensures SeverityCount(fs, Critical) > 0 ==> r[0] == CriticalLine(SeverityCount(fs, Critical))
    ensures CoverageLine in r ==> r[|r| - 1] == CoverageLine
  {
    var critical := SeverityCount(fs, Critical);
    assert CriticalLine(critical)[0] == 'F' && SecurityLine[0] == 'S' && CoverageLine[0] == 'C';
    (if critical > 0 then [CriticalLine(critical)] else []) +
    (if CategoryCount(fs, Category.Security) > 0 then [SecurityLine] else []) +
    (if CategoryCount(fs, Category.Testing) == 0 then [CoverageLine] else [])
  }

  /** `determine_approval_status`: a priority chain over the critical and
      high counts and the summary's quality score. */
  function DetermineApproval(fs: seq<Finding>, summary: ReviewSummary): (r: ApprovalStatus)
    ensures r == Rejected <==> SeverityCount(fs, Critical) > 0
    ensures r == Approved <==>
      SeverityCount(fs, Critical) == 0 && SeverityCount(fs, High) == 0 && summary.codeQualityScore >= 90
    ensures r == RequiresChanges <==>
      SeverityCount(fs, Critical) == 0 && (SeverityCount(fs, High) > 3 || summary.codeQualityScore < 70)
    ensures r == ApprovedWithComments <==>
      && SeverityCount(fs, Critical) == 0 && SeverityCount(fs, High) <= 3 && summary.codeQualityScore >= 70
      && (SeverityCount(fs, High) > 0 || summary.codeQualityScore < 90)
  {
    var critical := SeverityCount(fs, Critical);
    var high := SeverityCount(fs, High);
    if critical > 0 then Rejected
    else if high > 3 then RequiresChanges
    else if summary.codeQualityScore < 70 then RequiresChanges
    else if high > 0 || summary.codeQualityScore < 90 then ApprovedWithComments
    else Approved
  }

  /** With the summary computed from the same findings, the quality
      thresholds never decide: the status follows from the critical and high
      counts alone. */
  lemma ApprovalByCounts(fs: seq<Finding>)
    ensures DetermineApproval(fs, SummaryOf(fs)) ==
      if SeverityCount(fs, Critical) > 0 then Rejected
      else if SeverityCount(fs, High) > 3 then RequiresChanges
      else if SeverityCount(fs, High) > 0 then ApprovedWithComments
      else Approved
  {
  }

  /** The spec of `review_changes`. */
  function Review(reviews: Reviews, request: ReviewRequest): Result<ReviewReport> {
    var changes := request.codeChanges;
    var all :- CollectFindings(reviews, request, changes);
    var summary := SummaryOf(all);
    Ok(ReviewReport(all, Diffs(changes, all), summary, Recommendations(all), DetermineApproval(all, summary)))
  }

  /** An empty change list is approved, with only the coverage advice. */
  lemma ReviewNoChanges(reviews: Reviews, request: ReviewRequest)
    requires request.codeChanges == []
    ensures Review(reviews, request).Ok?
    ensures Review(reviews, request).value.overallApproval == Approved
    ensures Review(reviews, request).value.recommendations == [CoverageLine]
    ensures Review(reviews, request).value.summary.codeQualityScore == 100
  {
  }

  /** `review_changes`: gather the findings change by change, returning the
      first error, then derive the reports. */
  method ReviewChanges(reviews: Reviews, request: ReviewRequest) returns (r: Result<ReviewReport>)
    ensures r == Review(reviews, request)
  {
    var changes := request.codeChanges;
    var all: seq<Finding> := [];
    for i := 0 to |changes|
      invariant CollectFindings(reviews, request, changes[..i]) == Ok(all)
    {
      assert changes[..i + 1][..i] == changes[..i];
      var found := ReviewSingleChange(reviews, changes[i], request);
      if found.Err? {
        CollectFindingsErr(reviews, request, changes, i + 1);
        return Err(found.error);
      }
      all := all + found.value;
    }
    assert changes[..|changes|] == changes;
    var diffs := GenerateAnnotatedDiffs(changes, all);
    var summary := GenerateSummary(all);
    var recommendations := Recommendations(all);
    var approval := DetermineApproval(all, summary);
    r := Ok(ReviewReport(all, diffs, summary, recommendations, approval));
  }
}
