/** The debug agent (codex/agents/debug/src/lib.rs): from a batch of log
    entries it obtains log patterns and issues from the language model, then
    derives one root cause per issue, recommendations, patch suggestions,
    monitoring advice and next steps.

    The model calls are oracles: `patternCall` sees the sampled logs,
    `issueCall` the error logs, `rootCall(i, issue)` the `i`-th issue, and
    `fixCall(i, j)` the `i`-th issue paired with the `j`-th codebase file.
    Only their success or failure, and the patterns and issues they report,
    matter to the agent. */
module DebugAgent {
  import opened Wrappers
  import Text

  datatype LogLevel = Trace | Debug | Info | Warn | Error | Fatal

  datatype LogEntry = LogEntry(timestamp: string, level: LogLevel, message: string, source: string)

  datatype CodebaseFile = CodebaseFile(path: string, content: string, language: string)

  datatype DebugRequest = DebugRequest(
    logs: seq<LogEntry>,
    errorContext: Option<map<string, string>>,
    codebaseFiles: Option<seq<CodebaseFile>>,
    recentChanges: Option<seq<string>>)

  datatype IssueSeverity = Critical | High | Medium | Low

  datatype IssueCategory = RuntimeError | Performance | Memory | Configuration | Integration | Logic | Security

  datatype DebugIssue = DebugIssue(
    id: string,
    severity: IssueSeverity,
    category: IssueCategory,
    title: string,
    description: string,
    affectedFiles: seq<string>)

  datatype RootCause = RootCause(id: string, description: string, confidence: real, evidence: seq<string>, fixSuggestion: string)

  datatype PatternType = ErrorSpike | ResourceExhaustion | SlowQuery | MemoryGrowth | FailedConnection | Timeout

  datatype LogPattern = LogPattern(patternType: PatternType, description: string, frequency: nat)

  datatype RecommendationPriority = Immediate | High | Medium | Low

  datatype DebugRecommendation = DebugRecommendation(
    id: string,
    priority: RecommendationPriority,
    title: string,
    description: string,
    actionItems: seq<string>,
    estimatedEffort: string)

  datatype PatchSuggestion = PatchSuggestion(filePath: string, oldContent: string, newContent: string, relatedIssueId: string)

  datatype DebugAnalysis = DebugAnalysis(
    issues: seq<DebugIssue>,
    rootCauses: seq<RootCause>,
    patterns: seq<LogPattern>,
    recommendations: seq<DebugRecommendation>,
    confidence: real)

  datatype DebugReport = DebugReport(
    analysis: DebugAnalysis,
    patchSuggestions: seq<PatchSuggestion>,
    monitoringRecommendations: seq<string>,
    nextSteps: seq<string>)

  type PatternCall = seq<LogEntry> -> Result<seq<LogPattern>>
  type IssueCall = seq<LogEntry> -> Result<seq<DebugIssue>>
  type RootCall = (nat, DebugIssue) -> Result<string>
  type FixCall = (nat, nat) -> Result<string>

  // ---------------------------------------------------------------------
  // What the model is shown

  const SampleSize: nat := 50

  /** `logs.iter().take(50)`: the pattern prompt samples the first logs. */
  function Sample(logs: seq<LogEntry>): (r: seq<LogEntry>)
    ensures |r| <= SampleSize
    ensures |logs| <= SampleSize ==> r == logs
    ensures r <= logs
  {
    if |logs| <= SampleSize then logs else logs[..SampleSize]
  }

  predicate IsError(entry: LogEntry) {
    entry.level == Error || entry.level == Fatal
  }

  /** The logs at Error or Fatal level, in their original order. */
  function ErrorLogs(logs: seq<LogEntry>): (r: seq<LogEntry>)
    ensures |r| <= |logs|
    ensures forall i :: 0 <= i < |r| ==> IsError(r[i])
  {
    if logs == [] then []
    else
      var last := logs[|logs| - 1];
      ErrorLogs(logs[..|logs| - 1]) + (if IsError(last) then [last] else [])
  }

  /** Every error log is kept, and nothing else is. */
  lemma {:induction false} ErrorLogsMembers(logs: seq<LogEntry>)
    ensures forall e :: e in ErrorLogs(logs) <==> e in logs && IsError(e)
    decreases |logs|
  {
    if logs != [] {
      var prefix := logs[..|logs| - 1];
      ErrorLogsMembers(prefix);
      assert logs == prefix + [logs[|logs| - 1]];
    }
  }

  /** The loop in `identify_issues` that collects the error logs for the
      prompt. */
  method SelectErrorLogs(logs: seq<LogEntry>) returns (selected: seq<LogEntry>)
    ensures selected == ErrorLogs(logs)
  {
    selected := [];
    for i := 0 to |logs|
      invariant selected == ErrorLogs(logs[..i])
    {
      assert logs[..i + 1][..i] == logs[..i];
      if logs[i].level == Error || logs[i].level == Fatal {
        selected := selected + [logs[i]];
      }
    }
    assert logs[..|logs|] == logs;
  }

  // ---------------------------------------------------------------------
  // Root causes

  function RootCauseFor(issue: DebugIssue): RootCause {
    RootCause("RC-" + issue.id, "Root cause analysis for " + issue.title, 0.75,
      ["Log pattern analysis", "Code review findings"], "Increase connection pool size and add retry logic")
  }

  /** One root cause per issue, one model call each, stopping at the first
      failing call. */
  function RootCauses(rootCall: RootCall, issues: seq<DebugIssue>): (r: Result<seq<RootCause>>)
    ensures r.Ok? ==> |r.value| == |issues|
  {
    if issues == [] then Ok([])
    else
      var n := |issues| - 1;
      var earlier :- RootCauses(rootCall, issues[..n]);
      var _ :- rootCall(n, issues[n]);
      Ok(earlier + [RootCauseFor(issues[n])])
  }

  /** Root causes are found exactly when every call succeeds. */
  lemma {:induction false} RootCausesOk(rootCall: RootCall, issues: seq<DebugIssue>)
    ensures RootCauses(rootCall, issues).Ok? <==> forall i :: 0 <= i < |issues| ==> rootCall(i, issues[i]).Ok?
    decreases |issues|
  {
    if issues != [] {
      var n := |issues| - 1;
      var prefix := issues[..n];
      RootCausesOk(rootCall, prefix);
      assert forall i :: 0 <= i < n ==> prefix[i] == issues[i];
    }
  }

  /** The `i`-th root cause is named "RC-" followed by the `i`-th issue's id. */
  lemma {:induction false} RootCauseIds(rootCall: RootCall, issues: seq<DebugIssue>, causes: seq<RootCause>)
    requires RootCauses(rootCall, issues) == Ok(causes)
    ensures forall i :: 0 <= i < |issues| ==> causes[i].id == "RC-" + issues[i].id
    decreases |issues|
  {
    if issues != [] {
      var n := |issues| - 1;
      var prefix := issues[..n];
      var earlier := RootCauses(rootCall, prefix).value;
      RootCauseIds(rootCall, prefix, earlier);
      assert causes == earlier + [RootCauseFor(issues[n])];
      forall i | 0 <= i < |issues| ensures causes[i].id == "RC-" + issues[i].id {
        if i < n {
          assert prefix[i] == issues[i];
        }
      }
    }
  }

  /** Root causes are found exactly when every call succeeds; the `i`-th is
      named "RC-" followed by the `i`-th issue's id; so distinct issue ids
      give distinct root-cause ids. */
  lemma RootCausesFacts(rootCall: RootCall, issues: seq<DebugIssue>)
    ensures RootCauses(rootCall, issues).Ok? <==> forall i :: 0 <= i < |issues| ==> rootCall(i, issues[i]).Ok?
    ensures RootCauses(rootCall, issues).Ok? ==>
      forall i :: 0 <= i < |issues| ==> RootCauses(rootCall, issues).value[i].id == "RC-" + issues[i].id
    ensures RootCauses(rootCall, issues).Ok? ==>
      forall i, j :: 0 <= i < |issues| && 0 <= j < |issues| && issues[i].id != issues[j].id ==>
        RootCauses(rootCall, issues).value[i].id != RootCauses(rootCall, issues).value[j].id
  {
    RootCausesOk(rootCall, issues);
    if RootCauses(rootCall, issues).Ok? {
      var causes := RootCauses(rootCall, issues).value;
      RootCauseIds(rootCall, issues, causes);
      forall i, j | 0 <= i < |issues| && 0 <= j < |issues| && issues[i].id != issues[j].id
        ensures causes[i].id != causes[j].id
      {
        PrefixedDistinct(issues[i].id, issues[j].id);
      }
    }
  }

  /** Prefixing keeps distinct ids distinct. */
  lemma PrefixedDistinct(a: string, b: string)
    requires a != b
    ensures "RC-" + a != "RC-" + b
  {
    var p: string := "RC-";
    assert (p + a)[|p|..] == a;
    assert (p + b)[|p|..] == b;
  }

  lemma {:induction false} RootCausesErr(rootCall: RootCall, issues: seq<DebugIssue>, n: nat)
    requires n <= |issues|
    requires RootCauses(rootCall, issues[..n]).Err?
    ensures RootCauses(rootCall, issues) == RootCauses(rootCall, issues[..n])
    decreases |issues|
  {
    if n < |issues| {
      var prefix := issues[..|issues| - 1];
      assert prefix[..n] == issues[..n];
      RootCausesErr(rootCall, prefix, n);
    } else {
      assert issues[..n] == issues;
    }
  }

  /** `analyze_root_causes`. */
  method AnalyzeRootCauses(rootCall: RootCall, issues: seq<DebugIssue>) returns (r: Result<seq<RootCause>>)
    ensures r == RootCauses(rootCall, issues)
  {
    var causes: seq<RootCause> := [];
    for i := 0 to |issues|
      invariant RootCauses(rootCall, issues[..i]) == Ok(causes)
    {
      assert issues[..i + 1][..i] == issues[..i];
      var response := rootCall(i, issues[i]);
      if response.Err? {
        RootCausesErr(rootCall, issues, i + 1);
        return Err(response.error);
      }
      causes := causes + [RootCauseFor(issues[i])];
    }
    assert issues[..|issues|] == issues;
    r := Ok(causes);
  }

  // ---------------------------------------------------------------------
  // Recommendations

  predicate HasCritical(issues: seq<DebugIssue>) {
    exists i :: 0 <= i < |issues| && issues[i].severity == Critical
  }

  /** The number of critical issues. */
  function CriticalCount(issues: seq<DebugIssue>): (n: nat)
    ensures n <= |issues|
    ensures n > 0 <==> HasCritical(issues)
  {
    if issues == [] then 0
    else
      var prefix := issues[..|issues| - 1];
      assert forall i :: 0 <= i < |prefix| ==> prefix[i] == issues[i];
      CriticalCount(prefix) + (if issues[|issues| - 1].severity == Critical then 1 else 0)
  }

  function ImmediateRecommendation(critical: nat): DebugRecommendation {
    DebugRecommendation("REC-001", Immediate, "Fix critical issues immediately",
      Text.NatToString(critical) + " critical issues require immediate attention",
      ["Deploy hotfix for critical issues", "Implement monitoring alerts"], "2-4 hours")
  }

  /** The recommendation an issue of its category calls for, if any. */
  function CategoryRecommendation(issue: DebugIssue): seq<DebugRecommendation> {
    match issue.category
    case Performance =>
      [DebugRecommendation("REC-PERF-" + issue.id, RecommendationPriority.High, "Optimize " + issue.title, issue.description,
        ["Profile performance bottlenecks", "Implement caching where appropriate"], "4-8 hours")]
    case Memory =>
      [DebugRecommendation("REC-MEM-" + issue.id, RecommendationPriority.High, "Fix " + issue.title, issue.description,
        ["Review memory allocation patterns", "Implement proper cleanup"], "2-4 hours")]
    case _ => []
  }

  predicate NeedsWork(issue: DebugIssue) {
    issue.category == Performance || issue.category == Memory
  }

  /** The per-issue recommendations, in issue order. */
  function CategoryRecommendations(issues: seq<DebugIssue>): seq<DebugRecommendation> {
    if issues == [] then []
    else CategoryRecommendations(issues[..|issues| - 1]) + CategoryRecommendation(issues[|issues| - 1])
  }

  /** The performance and memory issues, in issue order. */
  function WorkIssues(issues: seq<DebugIssue>): (w: seq<DebugIssue>)
    ensures |w| <= |issues|
  {
    if issues == [] then []
    else
      var last := issues[|issues| - 1];
      WorkIssues(issues[..|issues| - 1]) + (if NeedsWork(last) then [last] else [])
  }

  /** An issue is kept iff it is a performance or memory issue. */
  lemma {:induction false} WorkIssuesMembers(issues: seq<DebugIssue>)
    ensures forall x :: x in WorkIssues(issues) <==> x in issues && NeedsWork(x)
    decreases |issues|
  {
    if issues != [] {
      var prefix := issues[..|issues| - 1];
      WorkIssuesMembers(prefix);
      assert issues == prefix + [issues[|issues| - 1]];
    }
  }

  /** The id prefix and title verb of a performance or memory recommendation. */
  function WorkPrefix(category: IssueCategory): string {
    if category == Performance then "REC-PERF-" else "REC-MEM-"
  }

  function WorkVerb(category: IssueCategory): string {
    if category == Performance then "Optimize " else "Fix "
  }

  /** The `k`-th recommendation is the one of the `k`-th performance or
      memory issue. */
  lemma {:induction false} CategoryRecommendationsAligned(issues: seq<DebugIssue>)
    ensures |CategoryRecommendations(issues)| == |WorkIssues(issues)|
    ensures forall k :: 0 <= k < |WorkIssues(issues)| ==>
      [CategoryRecommendations(issues)[k]] == CategoryRecommendation(WorkIssues(issues)[k])
    decreases |issues|
  {
    if issues != [] {
      var n := |issues| - 1;
      var prefix := issues[..n];
      CategoryRecommendationsAligned(prefix);
      var recs, earlier := CategoryRecommendations(issues), CategoryRecommendations(prefix);
      var w, w' := WorkIssues(issues), WorkIssues(prefix);
      assert recs == earlier + CategoryRecommendation(issues[n]);
      forall k | 0 <= k < |w| ensures [recs[k]] == CategoryRecommendation(w[k]) {
        if k < |w'| {
          assert recs[k] == earlier[k] && w[k] == w'[k];
        }
      }
    }
  }

  /** Each performance or memory issue, and no other, yields one High
      recommendation, in issue order, whose id is its category's prefix
      followed by the issue's id and whose description is the issue's. */
  lemma CategoryRecommendationsFacts(issues: seq<DebugIssue>)
    ensures |CategoryRecommendations(issues)| == |WorkIssues(issues)|
    ensures forall k :: 0 <= k < |WorkIssues(issues)| ==>
      var rec, issue := CategoryRecommendations(issues)[k], WorkIssues(issues)[k];
      && rec.priority == RecommendationPriority.High
      && rec.id == WorkPrefix(issue.category) + issue.id
      && rec.title == WorkVerb(issue.category) + issue.title
      && rec.description == issue.description
  {
    CategoryRecommendationsAligned(issues);
    WorkIssuesMembers(issues);
    var recs, w := CategoryRecommendations(issues), WorkIssues(issues);
    forall k | 0 <= k < |w|
      ensures && recs[k].priority == RecommendationPriority.High
              && recs[k].id == WorkPrefix(w[k].category) + w[k].id
              && recs[k].title == WorkVerb(w[k].category) + w[k].title
              && recs[k].description == w[k].description
    {
      assert w[k] in w;
      assert [recs[k]] == CategoryRecommendation(w[k]);
    }
  }

  /** The recommendations `generate_recommendations` returns. */
  function RecommendationsOf(issues: seq<DebugIssue>): seq<DebugRecommendation> {
    var critical := CriticalCount(issues);
    (if critical > 0 then [ImmediateRecommendation(critical)] else []) + CategoryRecommendations(issues)
  }

  /** An Immediate recommendation, "REC-001" with the number of critical
      issues in its description, leads the list exactly when some issue is
      critical, and appears nowhere else; the rest are the recommendations
      of the performance and memory issues, in issue order. */
  lemma RecommendationsFacts(issues: seq<DebugIssue>)
    ensures |RecommendationsOf(issues)| == (if HasCritical(issues) then 1 else 0) + |WorkIssues(issues)|
    ensures |RecommendationsOf(issues)| > 0 && RecommendationsOf(issues)[0].priority == Immediate <==> HasCritical(issues)
    ensures HasCritical(issues) ==>
      && RecommendationsOf(issues)[0].id == "REC-001"
      && RecommendationsOf(issues)[0].description ==
           Text.NatToString(CriticalCount(issues)) + " critical issues require immediate attention"
    ensures forall k :: 0 <= k < |WorkIssues(issues)| ==>
      RecommendationsOf(issues)[if HasCritical(issues) then k + 1 else k] == CategoryRecommendations(issues)[k]
    ensures forall k :: 0 < k < |RecommendationsOf(issues)| ==>
      RecommendationsOf(issues)[k].priority == RecommendationPriority.High
  {
    CategoryRecommendationsAligned(issues);
    RecommendationsShape(issues, RecommendationsOf(issues));
  }

  lemma RecommendationsShape(issues: seq<DebugIssue>, r: seq<DebugRecommendation>)
    requires r == RecommendationsOf(issues)
    requires |CategoryRecommendations(issues)| == |WorkIssues(issues)|
    ensures |r| == (if HasCritical(issues) then 1 else 0) + |WorkIssues(issues)|
    ensures |r| > 0 && r[0].priority == Immediate <==> HasCritical(issues)
    ensures HasCritical(issues) ==> r[0] == ImmediateRecommendation(CriticalCount(issues))
    ensures forall k :: 0 <= k < |WorkIssues(issues)| ==>
      r[if HasCritical(issues) then k + 1 else k] == CategoryRecommendations(issues)[k]
    ensures forall k :: 0 < k < |r| ==> r[k].priority == RecommendationPriority.High
  {
    var rest := CategoryRecommendations(issues);
    HighOnly(issues);
    if !HasCritical(issues) {
      assert r == rest;
    } else {
      assert r == [ImmediateRecommendation(CriticalCount(issues))] + rest;
      forall k | 0 < k < |r| ensures r[k].priority == RecommendationPriority.High {
        assert r[k] == rest[k - 1];
      }
    }
  }

  /** Every per-category recommendation is High. */
  lemma {:induction false} HighOnly(issues: seq<DebugIssue>)
    ensures forall k :: 0 <= k < |CategoryRecommendations(issues)| ==>
      CategoryRecommendations(issues)[k].priority == RecommendationPriority.High
    decreases |issues|
  {
    if issues != [] {
      HighOnly(issues[..|issues| - 1]);
    }
  }

  /** The filter-count of critical issues. */
  method CountCritical(issues: seq<DebugIssue>) returns (critical: nat)
    ensures critical == CriticalCount(issues)
  {
    critical := 0;
    for i := 0 to |issues|
      invariant critical == CriticalCount(issues[..i])
    {
      assert issues[..i + 1][..i] == issues[..i];
      if issues[i].severity == Critical {
        critical := critical + 1;
      }
    }
    assert issues[..|issues|] == issues;
  }

  /** The pass over the issues that turns each performance or memory issue
      into its recommendation. */
  method CategoryPass(issues: seq<DebugIssue>) returns (recs: seq<DebugRecommendation>)
    ensures recs == CategoryRecommendations(issues)
  {
    recs := [];
    for i := 0 to |issues|
      invariant recs == CategoryRecommendations(issues[..i])
    {
      assert issues[..i + 1][..i] == issues[..i];
      recs := recs + CategoryRecommendation(issues[i]);
    }
    assert issues[..|issues|] == issues;
  }

  /** `generate_recommendations`: the critical count, then one pass over the
      issues. */
  method GenerateRecommendations(issues: seq<DebugIssue>) returns (r: seq<DebugRecommendation>)
    ensures r == RecommendationsOf(issues)
  {
    var critical := CountCritical(issues);
    r := [];
    if critical > 0 {
      r := [ImmediateRecommendation(critical)];
    }
    var recs := CategoryPass(issues);
    r := r + recs;
  }

  // ---------------------------------------------------------------------
  // Patch suggestions

  /** `generate_fix_patch`: the model is asked for a fix, but no patch is
      derived from the answer yet. */
  function FixPatch(fixCall: FixCall, i: nat, j: nat): (r: Result<Option<PatchSuggestion>>)
    ensures r.Ok? <==> fixCall(i, j).Ok?
    ensures r.Ok? ==> r.value.None?
  {
    var _ :- fixCall(i, j);
    Ok(None)
  }

  function Present(patch: Option<PatchSuggestion>): seq<PatchSuggestion> {
    if patch.Some? then [patch.value] else []
  }

  /** The patches for the `i`-th issue over the given files: a fix is asked
      for each file the issue affects. */
  function IssuePatches(fixCall: FixCall, i: nat, issue: DebugIssue, files: seq<CodebaseFile>): Result<seq<PatchSuggestion>> {
    if files == [] then Ok([])
    else
      var n := |files| - 1;
      var earlier :- IssuePatches(fixCall, i, issue, files[..n]);
      if files[n].path in issue.affectedFiles then
        var patch :- FixPatch(fixCall, i, n);
        Ok(earlier + Present(patch))
      else Ok(earlier)
  }

  /** The number of issue/root-cause pairs: `zip` stops at the shorter list. */
  function Pairs(issues: seq<DebugIssue>, rootCauses: seq<RootCause>): nat {
    if |issues| <= |rootCauses| then |issues| else |rootCauses|
  }

  /** The patches for the first `k` pairs. */
  function PatchesUpTo(fixCall: FixCall, issues: seq<DebugIssue>, files: seq<CodebaseFile>, k: nat): Result<seq<PatchSuggestion>>
    requires k <= |issues|
  {
    if k == 0 then Ok([])
    else
      var earlier :- PatchesUpTo(fixCall, issues, files, k - 1);
      var found :- IssuePatches(fixCall, k - 1, issues[k - 1], files);
      Ok(earlier + found)
  }

  /** What `generate_patch_suggestions` returns. */
  function Patches(fixCall: FixCall, issues: seq<DebugIssue>, rootCauses: seq<RootCause>, files: Option<seq<CodebaseFile>>)
    : Result<seq<PatchSuggestion>>
  {
    if files.None? then Ok([]) else PatchesUpTo(fixCall, issues, files.value, Pairs(issues, rootCauses))
  }

  /** A fix is asked for the `i`-th issue and the `j`-th file. */
  predicate Asked(issues: seq<DebugIssue>, files: seq<CodebaseFile>, i: nat, j: nat) {
    i < |issues| && j < |files| && files[j].path in issues[i].affectedFiles
  }

  lemma {:induction false} IssuePatchesFacts(fixCall: FixCall, i: nat, issue: DebugIssue, files: seq<CodebaseFile>)
    ensures IssuePatches(fixCall, i, issue, files).Ok? <==>
      forall j :: 0 <= j < |files| && files[j].path in issue.affectedFiles ==> fixCall(i, j).Ok?
    ensures IssuePatches(fixCall, i, issue, files).Ok? ==> IssuePatches(fixCall, i, issue, files).value == []
    decreases |files|
  {
    if files != [] {
      var prefix := files[..|files| - 1];
      IssuePatchesFacts(fixCall, i, issue, prefix);
      assert forall j :: 0 <= j < |prefix| ==> prefix[j] == files[j];
    }
  }

  lemma {:induction false} PatchesUpToFacts(fixCall: FixCall, issues: seq<DebugIssue>, files: seq<CodebaseFile>, k: nat)
    requires k <= |issues|
    ensures PatchesUpTo(fixCall, issues, files, k).Ok? <==>
      forall i: nat, j: nat :: i < k && Asked(issues, files, i, j) ==> fixCall(i, j).Ok?
    ensures PatchesUpTo(fixCall, issues, files, k).Ok? ==> PatchesUpTo(fixCall, issues, files, k).value == []
    decreases k
  {
    if k > 0 {
      PatchesUpToFacts(fixCall, issues, files, k - 1);
      IssuePatchesFacts(fixCall, k - 1, issues[k - 1], files);
    }
  }

  /** No patch is ever suggested; the run fails exactly when a fix is asked
      for, for one of the paired issues and a file it affects, and the model
      call fails. Issues past the shorter of the two lists are never looked
      at. */
  lemma PatchesFacts(fixCall: FixCall, issues: seq<DebugIssue>, rootCauses: seq<RootCause>, files: Option<seq<CodebaseFile>>)
    ensures Patches(fixCall, issues, rootCauses, files).Ok? ==> Patches(fixCall, issues, rootCauses, files).value == []
    ensures Patches(fixCall, issues, rootCauses, files).Err? <==>
      files.Some? && exists i: nat, j: nat :: i < Pairs(issues, rootCauses) && Asked(issues, files.value, i, j) && fixCall(i, j).Err?
  {
    if files.Some? {
      PatchesUpToFacts(fixCall, issues, files.value, Pairs(issues, rootCauses));
    }
  }

  lemma {:induction false} IssuePatchesErr(fixCall: FixCall, i: nat, issue: DebugIssue, files: seq<CodebaseFile>, n: nat)
    requires n <= |files|
    requires IssuePatches(fixCall, i, issue, files[..n]).Err?
    ensures IssuePatches(fixCall, i, issue, files) == IssuePatches(fixCall, i, issue, files[..n])
    decreases |files|
  {
    if n < |files| {
      var prefix := files[..|files| - 1];
      assert prefix[..n] == files[..n];
      IssuePatchesErr(fixCall, i, issue, prefix, n);
    } else {
      assert files[..n] == files;
    }
  }

  lemma {:induction false} PatchesUpToErr(fixCall: FixCall, issues: seq<DebugIssue>, files: seq<CodebaseFile>, k: nat, n: nat)
    requires k <= n <= |issues|
    requires PatchesUpTo(fixCall, issues, files, k).Err?
    ensures PatchesUpTo(fixCall, issues, files, n) == PatchesUpTo(fixCall, issues, files, k)
    decreases n
  {
    if k < n {
      PatchesUpToErr(fixCall, issues, files, k, n - 1);
    }
  }

  /** `generate_patch_suggestions`: for each issue paired with a root cause,
      a fix for every codebase file the issue affects. */
  method GeneratePatchSuggestions(fixCall: FixCall, issues: seq<DebugIssue>, rootCauses: seq<RootCause>,
                                  files: Option<seq<CodebaseFile>>)
    returns (r: Result<seq<PatchSuggestion>>)
    ensures r == Patches(fixCall, issues, rootCauses, files)
  {
    var patches: seq<PatchSuggestion> := [];
    if files.None? {
      return Ok(patches);
    }
    var codebase := files.value;
    var pairs := if |issues| <= |rootCauses| then |issues| else |rootCauses|;
    for i := 0 to pairs
      invariant PatchesUpTo(fixCall, issues, codebase, i) == Ok(patches)
    {
      ghost var before := patches;
      for j := 0 to |codebase|
        invariant IssuePatches(fixCall, i, issues[i], codebase[..j]).Ok?
        invariant patches == before + IssuePatches(fixCall, i, issues[i], codebase[..j]).value
      {
        assert codebase[..j + 1][..j] == codebase[..j];
        if codebase[j].path in issues[i].affectedFiles {
          var patch := FixPatch(fixCall, i, j);
          if patch.Err? {
            IssuePatchesErr(fixCall, i, issues[i], codebase, j + 1);
            PatchesUpToErr(fixCall, issues, codebase, i + 1, pairs);
            return Err(patch.error);
          }
          if patch.value.Some? {
            patches := patches + [patch.value.value];
          }
        }
      }
      assert codebase[..|codebase|] == codebase;
    }
    r := Ok(patches);
  }

  // ---------------------------------------------------------------------
  // Monitoring advice and next steps

  const ErrorRateAlert: string := "Set up alerts for error rate thresholds"
  const MemoryAlert: string := "Monitor memory usage and set up " + "garbage collection alerts"
  const QueryMonitor: string := "Monitor database query performance"
  const StructuredLogging: string := "Implement structured logging with correlation IDs"
  const LogAggregation: string := "Set up log aggregation and alerting system"

  /** The monitoring advice a pattern calls for, if any. */
  function PatternAdvice(pattern: LogPattern): seq<string> {
    match pattern.patternType
    case ErrorSpike => [ErrorRateAlert]
    case MemoryGrowth => [MemoryAlert]
    case SlowQuery => [QueryMonitor]
    case _ => []
  }

  predicate Monitored(pattern: LogPattern) {
    pattern.patternType == ErrorSpike || pattern.patternType == MemoryGrowth || pattern.patternType == SlowQuery
  }

  function PatternsAdvice(patterns: seq<LogPattern>): seq<string> {
    if patterns == [] then []
    else PatternsAdvice(patterns[..|patterns| - 1]) + PatternAdvice(patterns[|patterns| - 1])
  }

  /** The error-spike, memory-growth and slow-query patterns, in order. */
  function MonitoredPatterns(patterns: seq<LogPattern>): (m: seq<LogPattern>)
    ensures |m| <= |patterns|
  {
    if patterns == [] then []
    else
      var last := patterns[|patterns| - 1];
      MonitoredPatterns(patterns[..|patterns| - 1]) + (if Monitored(last) then [last] else [])
  }

  /** A pattern is kept iff it is one of the three monitored types. */
  lemma {:induction false} MonitoredPatternsMembers(patterns: seq<LogPattern>)
    ensures forall p :: p in MonitoredPatterns(patterns) <==> p in patterns && Monitored(p)
    decreases |patterns|
  {
    if patterns != [] {
      var prefix := patterns[..|patterns| - 1];
      MonitoredPatternsMembers(prefix);
      assert patterns == prefix + [patterns[|patterns| - 1]];
    }
  }

  /** The alert a monitored pattern type calls for. */
  predicate AlertFits(t: PatternType, alert: string) {
    && (t == ErrorSpike ==> alert == ErrorRateAlert)
    && (t == MemoryGrowth ==> alert == MemoryAlert)
    && (t == SlowQuery ==> alert == QueryMonitor)
  }

  /** The monitoring advice `generate_monitoring_recommendations` returns. */
  function MonitoringOf(patterns: seq<LogPattern>): seq<string> {
    PatternsAdvice(patterns) + [StructuredLogging, LogAggregation]
  }

  /** One line per monitored pattern, in pattern order: an error spike gives
      the error-rate alert, memory growth the memory alert, a slow query the
      query monitor. */
  lemma {:induction false} PatternsAdviceFacts(patterns: seq<LogPattern>)
    ensures |PatternsAdvice(patterns)| == |MonitoredPatterns(patterns)|
    ensures forall k :: 0 <= k < |MonitoredPatterns(patterns)| ==>
      AlertFits(MonitoredPatterns(patterns)[k].patternType, PatternsAdvice(patterns)[k])
    decreases |patterns|
  {
    if patterns != [] {
      var n := |patterns| - 1;
      var prefix := patterns[..n];
      PatternsAdviceFacts(prefix);
      var advice, earlier := PatternsAdvice(patterns), PatternsAdvice(prefix);
      var m, m' := MonitoredPatterns(patterns), MonitoredPatterns(prefix);
      assert advice == earlier + PatternAdvice(patterns[n]);
      forall k | 0 <= k < |m| ensures AlertFits(m[k].patternType, advice[k]) {
        if k < |m'| {
          assert advice[k] == earlier[k] && m[k] == m'[k];
        }
      }
    }
  }

  /** The advice is the per-pattern alerts, in pattern order, then the two
      fixed lines; so there are always at least two. */
  lemma MonitoringFacts(patterns: seq<LogPattern>)
    ensures |MonitoringOf(patterns)| == |MonitoredPatterns(patterns)| + 2
    ensures MonitoringOf(patterns)[|MonitoringOf(patterns)| - 2..] == [StructuredLogging, LogAggregation]
    ensures forall k :: 0 <= k < |MonitoredPatterns(patterns)| ==>
      AlertFits(MonitoredPatterns(patterns)[k].patternType, MonitoringOf(patterns)[k])
  {
    PatternsAdviceFacts(patterns);
    var r := MonitoringOf(patterns);
    assert forall k :: 0 <= k < |r| - 2 ==> r[k] == PatternsAdvice(patterns)[k];
  }

  /** `generate_monitoring_recommendations`. */
  method GenerateMonitoringRecommendations(patterns: seq<LogPattern>) returns (r: seq<string>)
    ensures r == MonitoringOf(patterns)
  {
    r := [];
    for i := 0 to |patterns|
      invariant r == PatternsAdvice(patterns[..i])
    {
      assert patterns[..i + 1][..i] == patterns[..i];
      match patterns[i].patternType {
        case ErrorSpike => r := r + [ErrorRateAlert];
        case MemoryGrowth => r := r + [MemoryAlert];
        case SlowQuery => r := r + [QueryMonitor];
        case _ =>
      }
    }
    assert patterns[..|patterns|] == patterns;
    r := r + [StructuredLogging, LogAggregation];
  }

  const CriticalFix: string := "Deploy immediate fix for critical issues"
  const SystemAudit: string := "Conduct comprehensive system audit"
  const MonitoringStep: string := "Implement automated monitoring and alerting"
  const ErrorHandlingStep: string := "Review and update error handling patterns"
  const CircuitBreakerStep: string := "Consider implementing circuit breaker patterns"
  const FixedSteps: seq<string> := [MonitoringStep, ErrorHandlingStep, CircuitBreakerStep]

  /** The next steps `generate_next_steps` returns. */
  function NextStepsOf(issues: seq<DebugIssue>): seq<string> {
    (if HasCritical(issues) then [CriticalFix] else []) + (if |issues| > 5 then [SystemAudit] else []) + FixedSteps
  }

  /** Three to five steps: the critical fix first exactly when some issue is
      critical, the audit exactly when there are more than five issues, and
      the three fixed steps last. */
  lemma NextStepsFacts(issues: seq<DebugIssue>)
    ensures var r := NextStepsOf(issues);
      && 3 <= |r| <= 5
      && r[|r| - 3..] == FixedSteps
      && (r[0] == CriticalFix <==> HasCritical(issues))
      && (CriticalFix in r <==> HasCritical(issues))
      && (SystemAudit in r <==> |issues| > 5)
  {
    assert |CriticalFix| == 40 && |SystemAudit| == 34;
    assert |MonitoringStep| == 43 && |ErrorHandlingStep| == 41 && |CircuitBreakerStep| == 46;
    var r := NextStepsOf(issues);
    assert r[|r| - 3..] == FixedSteps;
  }

  /** `generate_next_steps`. */
  method GenerateNextSteps(issues: seq<DebugIssue>) returns (r: seq<string>)
    ensures r == NextStepsOf(issues)
  {
    r := [];
    var critical := false;
    for i := 0 to |issues|
      invariant critical <==> HasCritical(issues[..i])
    {
      assert issues[..i + 1][..i] == issues[..i];
      if issues[i].severity == Critical {
        critical := true;
      }
    }
    assert issues[..|issues|] == issues;
    if critical {
      r := r + [CriticalFix];
    }
    if |issues| > 5 {
      r := r + [SystemAudit];
    }
    r := r + FixedSteps;
  }

  // ---------------------------------------------------------------------
  // Assembly

  const AnalysisConfidence: real := 0.85

  /** The report `analyze_logs` returns: the pattern call sees the sampled
      logs, the issue call the error logs, and a failing call ends the run. */
  method AnalyzeLogs(patternCall: PatternCall, issueCall: IssueCall, rootCall: RootCall, fixCall: FixCall, request: DebugRequest)
    returns (r: Result<DebugReport>)
    ensures var patterns, found := patternCall(Sample(request.logs)), issueCall(ErrorLogs(request.logs));
      r.Ok? <==>
        && patterns.Ok? && found.Ok?
        && RootCauses(rootCall, found.value).Ok?
        && Patches(fixCall, found.value, RootCauses(rootCall, found.value).value, request.codebaseFiles).Ok?
    ensures patternCall(Sample(request.logs)).Err? ==> r == Err(patternCall(Sample(request.logs)).error)
    ensures var patterns, found := patternCall(Sample(request.logs)), issueCall(ErrorLogs(request.logs));
      patterns.Ok? && found.Err? ==> r == Err(found.error)
    ensures var patterns, found := patternCall(Sample(request.logs)), issueCall(ErrorLogs(request.logs));
      patterns.Ok? && found.Ok? && RootCauses(rootCall, found.value).Err? ==>
        r == Err(RootCauses(rootCall, found.value).error)
    ensures var patterns, found := patternCall(Sample(request.logs)), issueCall(ErrorLogs(request.logs));
      patterns.Ok? && found.Ok? && RootCauses(rootCall, found.value).Ok? &&
      Patches(fixCall, found.value, RootCauses(rootCall, found.value).value, request.codebaseFiles).Err? ==>
        r == Err(Patches(fixCall, found.value, RootCauses(rootCall, found.value).value, request.codebaseFiles).error)
    ensures r.Ok? ==>
      var issues := issueCall(ErrorLogs(request.logs)).value;
      && r.value.analysis.issues == issues
      && r.value.analysis.patterns == patternCall(Sample(request.logs)).value
      && RootCauses(rootCall, issues) == Ok(r.value.analysis.rootCauses)
      && r.value.analysis.recommendations == RecommendationsOf(issues)
      && Patches(fixCall, issues, r.value.analysis.rootCauses, request.codebaseFiles) == Ok(r.value.patchSuggestions)
      && r.value.patchSuggestions == []
      && r.value.monitoringRecommendations == MonitoringOf(r.value.analysis.patterns)
      && r.value.nextSteps == NextStepsOf(issues)
      && r.value.analysis.confidence == AnalysisConfidence
  {
    var patterns :- patternCall(Sample(request.logs));
    var errorLogs := SelectErrorLogs(request.logs);
    var issues :- issueCall(errorLogs);
    var rootCauses :- AnalyzeRootCauses(rootCall, issues);
    var recommendations := GenerateRecommendations(issues);
    var patches :- GeneratePatchSuggestions(fixCall, issues, rootCauses, request.codebaseFiles);
    PatchesFacts(fixCall, issues, rootCauses, request.codebaseFiles);
    var monitoring := GenerateMonitoringRecommendations(patterns);
    var nextSteps := GenerateNextSteps(issues);
    var analysis := DebugAnalysis(issues, rootCauses, patterns, recommendations, AnalysisConfidence);
    r := Ok(DebugReport(analysis, patches, monitoring, nextSteps));
  }
}
