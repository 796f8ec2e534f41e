/** The test generator agent (codex/agents/test-generator/src/lib.rs): it
    analyses the changed files for testable elements, writes unit tests per
    function, integration tests per endpoint and one end-to-end test, and
    describes the suite with setup/teardown code, metadata and advice.

    The language-model calls are oracles indexed by position:
    `extract(i, change)` for the `i`-th change, `unitCall(i, f)` for the
    `i`-th function, `integrationCall(i, e)` for the `i`-th endpoint and
    `e2eCall` for the single end-to-end request. */
module TestGenerator {
  import opened Wrappers
  import Text
  import opened Counting

  datatype CodeChange = CodeChange(filePath: string, newContent: string, changeType: string)

  datatype ExistingTest = ExistingTest(filePath: string, content: string, framework: string)

  datatype TestRequest = TestRequest(
    codeChanges: seq<CodeChange>,
    requirements: Option<seq<string>>,
    existingTests: Option<seq<ExistingTest>>,
    testFramework: Option<string>,
    coverageGoals: Option<seq<string>>)

  datatype TestType = Unit | Integration | E2E | Component | API

  const AllTestTypes: seq<TestType> := [Unit, Integration, E2E, Component, API]

  /** A generated test, without its placeholder coverage figures. */
  datatype GeneratedTest = GeneratedTest(filePath: string, testType: TestType, framework: string, content: string, tags: seq<string>)

  datatype TestableElements = TestableElements(functions: seq<string>, classes: seq<string>, endpoints: seq<string>)

  datatype ChangeAnalysis = ChangeAnalysis(
    functions: seq<string>,
    classes: seq<string>,
    endpoints: seq<string>,
    testFramework: Option<string>)

  datatype TestMetadata = TestMetadata(
    totalTests: nat,
    testDistribution: map<TestType, nat>,
    estimatedRunTime: string,
    frameworksUsed: seq<string>,
    mockRequirements: seq<string>)

  datatype TestSuite = TestSuite(
    tests: seq<GeneratedTest>,
    setupCode: Option<string>,
    teardownCode: Option<string>,
    metadata: TestMetadata,
    recommendations: seq<string>)

  type Extract = (nat, CodeChange) -> Result<TestableElements>
  type Call = (nat, string) -> Result<string>

  // ---------------------------------------------------------------------
  // Framework detection and change analysis

  /** `detect_framework`: a first-match chain over the path. The pytest
      suffix "test_*.py" is compared literally, not as a pattern. */
  function DetectFramework(path: string): (r: string)
    ensures r in {"jest", "rspec", "pytest", "rust test", "unknown"}
    ensures r == "jest" <==> Text.Contains(path, "jest") || Text.EndsWith(path, ".test.js")
    ensures r == "rspec" ==> Text.Contains(path, "rspec") || Text.EndsWith(path, "_spec.rb")
    ensures r == "pytest" ==> Text.Contains(path, "pytest") || Text.EndsWith(path, "test_*.py")
    ensures r == "rust test" ==> Text.Contains(path, "cargo") && Text.EndsWith(path, ".rs")
    ensures r == "unknown" ==> !(Text.Contains(path, "cargo") && Text.EndsWith(path, ".rs"))
    ensures r == "unknown" ==>
      && !Text.Contains(path, "jest") && !Text.Contains(path, "rspec") && !Text.Contains(path, "pytest")
      && !Text.EndsWith(path, ".test.js") && !Text.EndsWith(path, "_spec.rb") && !Text.EndsWith(path, "test_*.py")
  {
    if Text.Contains(path, "jest") || Text.EndsWith(path, ".test.js") then "jest"
    else if Text.Contains(path, "rspec") || Text.EndsWith(path, "_spec.rb") then "rspec"
    else if Text.Contains(path, "pytest") || Text.EndsWith(path, "test_*.py") then "pytest"
    else if Text.Contains(path, "cargo") && Text.EndsWith(path, ".rs") then "rust test"
    else "unknown"
  }

  /** A string in which the first character of `part` never starts a
      complete occurrence does not contain `part`. */
  lemma NotContains(s: string, part: string)
    requires part != []
    requires forall i :: 0 <= i && i + |part| <= |s| ==> s[i] != part[0]
    ensures !Text.Contains(s, part)
  {
    Text.ContainsIffOccurs(s, part);
    forall i | Text.OccursAt(s, part, i) ensures s[i] == part[0] {
      assert s[i..i + |part|][0] == s[i];
    }
  }

  /** "test_a.py" names none of the four framework words. */
  lemma PytestNameHasNoWord(p: string)
    requires p == "test_a.py"
    ensures !Text.Contains(p, "jest") && !Text.Contains(p, "rspec")
    ensures !Text.Contains(p, "pytest") && !Text.Contains(p, "cargo")
  {
    assert p[0] == 't' && p[1] == 'e' && p[2] == 's' && p[3] == 't' && p[4] == '_';
    assert p[5] == 'a' && |p| == 9;
    NotContains(p, "jest");
    NotContains(p, "rspec");
    NotContains(p, "pytest");
    NotContains(p, "cargo");
  }

  /** Because the suffix is compared literally, an ordinary pytest file name
      is not recognised: "test_a.py" gives "unknown". */
  lemma PytestNameNotRecognised(p: string)
    requires p == "test_a.py"
    ensures DetectFramework(p) == "unknown"
  {
    assert p[5] == 'a' && p[6] == '.' && p[7] == 'p' && p[8] == 'y' && |p| == 9;
    PytestNameHasNoWord(p);
    Text.NotEndsWith(p, ".test.js", 1);
    Text.NotEndsWith(p, "_spec.rb", 1);
    Text.NotEndsWith(p, "test_*.py", 4);
  }

  predicate MentionsTests(path: string) {
    Text.Contains(path, "test") || Text.Contains(path, "spec")
  }

  /** The analysis of the changes: testable elements concatenated in change
      order, and the framework of the last change whose path mentions tests;
      the first failing extraction ends the run. */
  function Analysis(extract: Extract, changes: seq<CodeChange>): Result<ChangeAnalysis> {
    if changes == [] then Ok(ChangeAnalysis([], [], [], None))
    else
      var n := |changes| - 1;
      var earlier :- Analysis(extract, changes[..n]);
      var framework := if MentionsTests(changes[n].filePath) then Some(DetectFramework(changes[n].filePath)) else earlier.testFramework;
      var elements :- extract(n, changes[n]);
      Ok(ChangeAnalysis(earlier.functions + elements.functions, earlier.classes + elements.classes,
        earlier.endpoints + elements.endpoints, framework))
  }

  /** With no change path mentioning tests, no framework is detected. */
  lemma {:induction false} AnalysisNoFramework(extract: Extract, changes: seq<CodeChange>)
    requires Analysis(extract, changes).Ok?
    requires forall i :: 0 <= i < |changes| ==> !MentionsTests(changes[i].filePath)
    ensures Analysis(extract, changes).value.testFramework == None
    decreases |changes|
  {
    if changes != [] {
      var n := |changes| - 1;
      assert !MentionsTests(changes[n].filePath);
      AnalysisNoFramework(extract, changes[..n]);
    }
  }

  /** The analysed framework is that of the last change whose path mentions
      tests. */
  lemma {:induction false} AnalysisFramework(extract: Extract, changes: seq<CodeChange>, i: nat)
    requires Analysis(extract, changes).Ok?
    requires i < |changes| && MentionsTests(changes[i].filePath)
    requires forall j :: i < j < |changes| ==> !MentionsTests(changes[j].filePath)
    ensures Analysis(extract, changes).value.testFramework == Some(DetectFramework(changes[i].filePath))
    decreases |changes|
  {
    var n := |changes| - 1;
    if i < n {
      var prefix := changes[..n];
      assert !MentionsTests(changes[n].filePath);
      assert prefix[i] == changes[i];
      AnalysisFramework(extract, prefix, i);
    }
  }

  /** An error among the first `n` changes is the error of the whole run. */
  lemma {:induction false} AnalysisErr(extract: Extract, changes: seq<CodeChange>, n: nat)
    requires n <= |changes|
    requires Analysis(extract, changes[..n]).Err?
    ensures Analysis(extract, changes) == Analysis(extract, changes[..n])
    decreases |changes|
  {
    if n < |changes| {
      var prefix := changes[..|changes| - 1];
      assert prefix[..n] == changes[..n];
      AnalysisErr(extract, prefix, n);
    } else {
      assert changes[..n] == changes;
    }
  }

  /** `analyze_changes`. */
  method AnalyzeChanges(extract: Extract, changes: seq<CodeChange>) returns (r: Result<ChangeAnalysis>)
    ensures r == Analysis(extract, changes)
  {
    var analysis := ChangeAnalysis([], [], [], None);
    for i := 0 to |changes|
      invariant Analysis(extract, changes[..i]) == Ok(analysis)
    {
      assert changes[..i + 1][..i] == changes[..i];
      var change := changes[i];
      if Text.Contains(change.filePath, "test") || Text.Contains(change.filePath, "spec") {
        analysis := analysis.(testFramework := Some(DetectFramework(change.filePath)));
      }
      var elements := extract(i, change);
      if elements.Err? {
        AnalysisErr(extract, changes, i + 1);
        return Err(elements.error);
      }
      analysis := analysis.(
        functions := analysis.functions + elements.value.functions,
        classes := analysis.classes + elements.value.classes,
        endpoints := analysis.endpoints + elements.value.endpoints);
    }
    assert changes[..|changes|] == changes;
    r := Ok(analysis);
  }

  // ---------------------------------------------------------------------
  // Unit, integration and end-to-end tests

  /** `endpoint.replace("/", "_").replace(" ", "_")`. */
  function Sanitize(s: string): (r: string)
    ensures |r| == |s|
    ensures forall i :: 0 <= i < |r| ==> r[i] != '/' && r[i] != ' '
    ensures forall i :: 0 <= i < |s| && s[i] != '/' && s[i] != ' ' ==> r[i] == s[i]
  {
    seq(|s|, i requires 0 <= i < |s| => if s[i] == '/' || s[i] == ' ' then '_' else s[i])
  }

  /** Sanitising twice changes nothing more. */
  lemma SanitizeIdempotent(s: string)
    ensures Sanitize(Sanitize(s)) == Sanitize(s)
  {
  }

  /** The test written for the `item` (a function or an endpoint) from the
      model's answer `content`. */
  function MakeTest(kind: TestType, framework: string, item: string, content: string): GeneratedTest {
    if kind == Unit then GeneratedTest("test/" + item + "_test.js", Unit, framework, content, ["unit", item])
    else GeneratedTest("test/integration" + Sanitize(item) + "_test.js", Integration, framework, content, ["integration", "api"])
  }

  /** One test per item, one model call each, stopping at the first failing
      call. */
  function Tests(call: Call, kind: TestType, framework: string, items: seq<string>): (r: Result<seq<GeneratedTest>>)
    ensures r.Ok? ==> |r.value| == |items|
  {
    if items == [] then Ok([])
    else
      var n := |items| - 1;
      var earlier :- Tests(call, kind, framework, items[..n]);
      var content :- call(n, items[n]);
      Ok(earlier + [MakeTest(kind, framework, items[n], content)])
  }

  /** Test writing succeeds exactly when every call does, and then the
      `i`-th test is made from the `i`-th item and the `i`-th answer. */
  lemma {:induction false} TestsFacts(call: Call, kind: TestType, framework: string, items: seq<string>)
    ensures Tests(call, kind, framework, items).Ok? <==> forall i :: 0 <= i < |items| ==> call(i, items[i]).Ok?
    ensures Tests(call, kind, framework, items).Ok? ==>
      forall i :: 0 <= i < |items| ==>
        Tests(call, kind, framework, items).value[i] == MakeTest(kind, framework, items[i], call(i, items[i]).value)
    decreases |items|
  {
    if items != [] {
      var n := |items| - 1;
      var prefix := items[..n];
      TestsFacts(call, kind, framework, prefix);
      assert forall i :: 0 <= i < n ==> prefix[i] == items[i];
    }
  }

  /** Every test written is of the requested kind. */
  lemma {:induction false} TestsOfKind(call: Call, kind: TestType, framework: string, items: seq<string>)
    requires kind == Unit || kind == Integration
    requires Tests(call, kind, framework, items).Ok?
    ensures forall i :: 0 <= i < |items| ==> Tests(call, kind, framework, items).value[i].testType == kind
    decreases |items|
  {
    if items != [] {
      TestsOfKind(call, kind, framework, items[..|items| - 1]);
    }
  }

  lemma {:induction false} TestsErr(call: Call, kind: TestType, framework: string, items: seq<string>, n: nat)
    requires n <= |items|
    requires Tests(call, kind, framework, items[..n]).Err?
    ensures Tests(call, kind, framework, items) == Tests(call, kind, framework, items[..n])
    decreases |items|
  {
    if n < |items| {
      var prefix := items[..|items| - 1];
      assert prefix[..n] == items[..n];
      TestsErr(call, kind, framework, prefix, n);
    } else {
      assert items[..n] == items;
    }
  }

  /** The loop shared by `generate_unit_tests` and
      `generate_integration_tests`. */
  method WriteTests(call: Call, kind: TestType, framework: string, items: seq<string>) returns (r: Result<seq<GeneratedTest>>)
    ensures r == Tests(call, kind, framework, items)
  {
    var tests: seq<GeneratedTest> := [];
    for i := 0 to |items|
      invariant Tests(call, kind, framework, items[..i]) == Ok(tests)
    {
      assert items[..i + 1][..i] == items[..i];
      var response := call(i, items[i]);
      if response.Err? {
        TestsErr(call, kind, framework, items, i + 1);
        return Err(response.error);
      }
      tests := tests + [MakeTest(kind, framework, items[i], response.value)];
    }
    assert items[..|items|] == items;
    r := Ok(tests);
  }

  function UnitFramework(request: TestRequest): string {
    request.testFramework.GetOr("jest")
  }

  function IntegrationFramework(request: TestRequest): string {
    request.testFramework.GetOr("supertest")
  }

  /** `generate_unit_tests`: one unit test per function, at
      "test/<function>_test.js", in the request's framework or jest. */
  method GenerateUnitTests(unitCall: Call, request: TestRequest, analysis: ChangeAnalysis) returns (r: Result<seq<GeneratedTest>>)
    ensures r == Tests(unitCall, Unit, UnitFramework(request), analysis.functions)
  {
    r := WriteTests(unitCall, Unit, UnitFramework(request), analysis.functions);
  }

  /** `generate_integration_tests`: one integration test per endpoint, in the
      request's framework or supertest. */
  method GenerateIntegrationTests(integrationCall: Call, request: TestRequest, analysis: ChangeAnalysis) returns (r: Result<seq<GeneratedTest>>)
    ensures r == Tests(integrationCall, Integration, IntegrationFramework(request), analysis.endpoints)
  {
    r := WriteTests(integrationCall, Integration, IntegrationFramework(request), analysis.endpoints);
  }

  /** `generate_e2e_tests`: exactly one playwright test. */
  function E2ETests(e2eCall: Result<string>): (r: Result<seq<GeneratedTest>>)
    ensures r.Ok? <==> e2eCall.Ok?
    ensures r.Ok? ==> |r.value| == 1 && r.value[0].testType == E2E
  {
    var content :- e2eCall;
    Ok([GeneratedTest("test/e2e/auth_flow_test.js", E2E, "playwright", content, ["e2e", "auth"])])
  }

  // ---------------------------------------------------------------------
  // Setup and teardown

  const JestSetup: string := "beforeEach(() => {\n  // Setup\n});"
  const JestTeardown: string := "afterEach(() => {\n  // Cleanup\n});"
  const PytestSetup: string := "@pytest.fixture\ndef setup():\n    # Setup"
  const PytestTeardown: string := "# Teardown handled by pytest"

  predicate NeedsFixtures(t: GeneratedTest) {
    t.framework == "jest" || t.framework == "pytest"
  }

  /** The setup parts: one per jest or pytest test, in test order. */
  function SetupParts(tests: seq<GeneratedTest>): seq<string> {
    if tests == [] then []
    else
      var t := tests[|tests| - 1];
      SetupParts(tests[..|tests| - 1]) +
        (if t.framework == "jest" then [JestSetup] else if t.framework == "pytest" then [PytestSetup] else [])
  }

  function TeardownParts(tests: seq<GeneratedTest>): seq<string> {
    if tests == [] then []
    else
      var t := tests[|tests| - 1];
      TeardownParts(tests[..|tests| - 1]) +
        (if t.framework == "jest" then [JestTeardown] else if t.framework == "pytest" then [PytestTeardown] else [])
  }

  function JoinParts(parts: seq<string>): Option<string> {
    if parts == [] then None else Some(Text.Join(parts, "\n\n"))
  }

  /** There are as many setup parts as teardown parts. */
  lemma {:induction false} PartsBalanced(tests: seq<GeneratedTest>)
    ensures |SetupParts(tests)| == |TeardownParts(tests)|
    decreases |tests|
  {
    if tests != [] {
      PartsBalanced(tests[..|tests| - 1]);
    }
  }

  /** There is a setup part exactly when some test uses jest or pytest. */
  lemma {:induction false} SetupPartsEmpty(tests: seq<GeneratedTest>)
    ensures SetupParts(tests) == [] <==> forall i :: 0 <= i < |tests| ==> !NeedsFixtures(tests[i])
    decreases |tests|
  {
    if tests != [] {
      var prefix := tests[..|tests| - 1];
      SetupPartsEmpty(prefix);
      assert forall i :: 0 <= i < |prefix| ==> prefix[i] == tests[i];
    }
  }

  /** There are as many setup parts as teardown parts, one per test that
      uses jest or pytest; so the setup is absent exactly when no test needs
      fixtures, and likewise the teardown. */
  lemma FixtureParts(tests: seq<GeneratedTest>)
    ensures |SetupParts(tests)| == |TeardownParts(tests)|
    ensures SetupParts(tests) == [] <==> forall i :: 0 <= i < |tests| ==> !NeedsFixtures(tests[i])
    ensures JoinParts(SetupParts(tests)).None? <==> JoinParts(TeardownParts(tests)).None?
  {
    PartsBalanced(tests);
    SetupPartsEmpty(tests);
  }

  /** `generate_setup_teardown`. */
  method GenerateSetupTeardown(tests: seq<GeneratedTest>) returns (setup: Option<string>, teardown: Option<string>)
    ensures setup == JoinParts(SetupParts(tests))
    ensures teardown == JoinParts(TeardownParts(tests))
  {
    var setupParts: seq<string> := [];
    var teardownParts: seq<string> := [];
    for i := 0 to |tests|
      invariant setupParts == SetupParts(tests[..i])
      invariant teardownParts == TeardownParts(tests[..i])
    {
      assert tests[..i + 1][..i] == tests[..i];
      var framework := tests[i].framework;
      if framework == "jest" {
        setupParts := setupParts + [JestSetup];
        teardownParts := teardownParts + [JestTeardown];
      } else if framework == "pytest" {
        setupParts := setupParts + [PytestSetup];
        teardownParts := teardownParts + [PytestTeardown];
      }
    }
    assert tests[..|tests|] == tests;
    setup := if setupParts == [] then None else Some(Text.Join(setupParts, "\n\n"));
    teardown := if teardownParts == [] then None else Some(Text.Join(teardownParts, "\n\n"));
  }

  // ---------------------------------------------------------------------
  // Metadata and recommendations

  function TestTypes(tests: seq<GeneratedTest>): (r: seq<TestType>)
    ensures |r| == |tests|
  {
    seq(|tests|, i requires 0 <= i < |tests| => tests[i].testType)
  }

  function Frameworks(tests: seq<GeneratedTest>): (r: seq<string>)
    ensures |r| == |tests|
  {
    seq(|tests|, i requires 0 <= i < |tests| => tests[i].framework)
  }

  /** The metadata `generate_metadata` returns. The frameworks are those of a
      hash set, listed here at their first occurrence. */
  function MetadataOf(tests: seq<GeneratedTest>): TestMetadata {
    TestMetadata(|tests|, Tally(TestTypes(tests)), "2-3 minutes", Dedup(Frameworks(tests)), ["database", "external APIs"])
  }

  /** The distribution counts the tests of each type and adds up to the
      total, and the frameworks are listed once each, exactly those the tests
      use. */
  lemma MetadataFacts(tests: seq<GeneratedTest>)
    ensures MetadataOf(tests).totalTests == |tests|
    ensures forall k :: Lookup(MetadataOf(tests).testDistribution, k) == Occurrences(TestTypes(tests), k)
    ensures Total(MetadataOf(tests).testDistribution, AllTestTypes) == |tests|
    ensures Distinct(MetadataOf(tests).frameworksUsed)
    ensures forall f :: f in MetadataOf(tests).frameworksUsed <==> exists i :: 0 <= i < |tests| && tests[i].framework == f
  {
    TallyCounts(TestTypes(tests));
    forall k | k in TestTypes(tests) ensures k in AllTestTypes {
      match k {
        case Unit => assert AllTestTypes[0] == k;
        case Integration => assert AllTestTypes[1] == k;
        case E2E => assert AllTestTypes[2] == k;
        case Component => assert AllTestTypes[3] == k;
        case API => assert AllTestTypes[4] == k;
      }
    }
    TallyTotal(TestTypes(tests), AllTestTypes);
    DedupFacts(Frameworks(tests));
    forall f ensures f in Frameworks(tests) <==> exists i :: 0 <= i < |tests| && tests[i].framework == f {
      if exists i :: 0 <= i < |tests| && tests[i].framework == f {
        var i :| 0 <= i < |tests| && tests[i].framework == f;
        assert Frameworks(tests)[i] == f;
      }
    }
  }

  /** `generate_metadata`: the distribution is filled in one pass. */
  method GenerateMetadata(tests: seq<GeneratedTest>) returns (metadata: TestMetadata)
    ensures metadata == MetadataOf(tests)
  {
    var distribution: map<TestType, nat> := map[];
    for i := 0 to |tests|
      invariant distribution == Tally(TestTypes(tests[..i]))
    {
      assert TestTypes(tests[..i + 1])[..i] == TestTypes(tests[..i]);
      var k := tests[i].testType;
      distribution := distribution[k := Lookup(distribution, k) + 1];
    }
    assert tests[..|tests|] == tests;
    metadata := TestMetadata(|tests|, distribution, "2-3 minutes", Dedup(Frameworks(tests)), ["database", "external APIs"]);
  }

  const MoreUnitTests: string := "Consider adding more unit tests for better coverage"
  const AddIntegrationTests: string := "Add integration tests for API endpoints"
  const AddE2ETests: string := "Consider adding E2E tests for critical user workflows"

  predicate HasIntegrationTest(tests: seq<GeneratedTest>) {
    exists i :: 0 <= i < |tests| && tests[i].testType == Integration
  }

  predicate AllUnit(tests: seq<GeneratedTest>) {
    forall i :: 0 <= i < |tests| ==> tests[i].testType == Unit
  }

  /** `generate_recommendations`. */
  function Recommendations(tests: seq<GeneratedTest>, analysis: ChangeAnalysis): (r: seq<string>)
    ensures |r| <= 3
    ensures MoreUnitTests in r <==> |tests| < |analysis.functions| * 2
    ensures AddIntegrationTests in r <==> analysis.endpoints != [] && !HasIntegrationTest(tests)
    ensures AddE2ETests in r <==> AllUnit(tests)
    ensures AddE2ETests in r ==> r[|r| - 1] == AddE2ETests
    ensures MoreUnitTests in r ==> r[0] == MoreUnitTests
  {
    assert |MoreUnitTests| == 51 && |AddIntegrationTests| == 39 && |AddE2ETests| == 53;
    (if |tests| < |analysis.functions| * 2 then [MoreUnitTests] else []) +
    (if analysis.endpoints != [] && !HasIntegrationTest(tests) then [AddIntegrationTests] else []) +
    (if AllUnit(tests) then [AddE2ETests] else [])
  }

  // ---------------------------------------------------------------------
  // Assembly

  /** The suite `generate_tests` returns: analysis, unit, integration and
      end-to-end tests, each stage stopping the run at its first error. */
  function Suite(extract: Extract, unitCall: Call, integrationCall: Call, e2eCall: Result<string>, request: TestRequest)
    : Result<TestSuite>
  {
    var analysis :- Analysis(extract, request.codeChanges);
    var unit :- Tests(unitCall, Unit, UnitFramework(request), analysis.functions);
    var integration :- Tests(integrationCall, Integration, IntegrationFramework(request), analysis.endpoints);
    var e2e :- E2ETests(e2eCall);
    Ok(Assemble(unit + integration + e2e, analysis))
  }

  /** The suite around the generated tests. */
  function Assemble(tests: seq<GeneratedTest>, analysis: ChangeAnalysis): TestSuite {
    TestSuite(tests, JoinParts(SetupParts(tests)), JoinParts(TeardownParts(tests)), MetadataOf(tests),
      Recommendations(tests, analysis))
  }

  /** `generate_tests`. */
  method GenerateTests(extract: Extract, unitCall: Call, integrationCall: Call, e2eCall: Result<string>, request: TestRequest)
    returns (r: Result<TestSuite>)
    ensures r == Suite(extract, unitCall, integrationCall, e2eCall, request)
  {
    var analysis :- AnalyzeChanges(extract, request.codeChanges);
    var unit :- GenerateUnitTests(unitCall, request, analysis);
    var integration :- GenerateIntegrationTests(integrationCall, request, analysis);
    var e2e :- E2ETests(e2eCall);
    var tests := unit + integration + e2e;
    var setup, teardown := GenerateSetupTeardown(tests);
    var metadata := GenerateMetadata(tests);
    r := Ok(TestSuite(tests, setup, teardown, metadata, Recommendations(tests, analysis)));
  }

  /** Unit tests, then integration tests, then one end-to-end test: the
      concatenation keeps each block's kind, and its recommendations never
      advise adding end-to-end tests, nor integration tests when there are
      endpoints. */
  lemma {:induction false} Layered(unit: seq<GeneratedTest>, integration: seq<GeneratedTest>,
                                   e2e: seq<GeneratedTest>, analysis: ChangeAnalysis)
    requires forall i :: 0 <= i < |unit| ==> unit[i].testType == Unit
    requires |integration| == |analysis.endpoints|
    requires forall i :: 0 <= i < |integration| ==> integration[i].testType == Integration
    requires |e2e| == 1 && e2e[0].testType == E2E
    ensures var tests := unit + integration + e2e;
      && (forall i :: 0 <= i < |unit| ==> tests[i].testType == Unit)
      && (forall i :: |unit| <= i < |tests| - 1 ==> tests[i].testType == Integration)
      && tests[|tests| - 1].testType == E2E
      && AddE2ETests !in Recommendations(tests, analysis)
      && AddIntegrationTests !in Recommendations(tests, analysis)
  {
    var tests := unit + integration + e2e;
    assert tests[|tests| - 1] == e2e[0];
    if analysis.endpoints != [] {
      assert tests[|unit|] == integration[0];
    }
    forall i | 0 <= i < |unit| ensures tests[i].testType == Unit {
      assert tests[i] == unit[i];
    }
    forall i | |unit| <= i < |tests| - 1 ensures tests[i].testType == Integration {
      assert tests[i] == integration[i - |unit|];
    }
  }

  /** A generated suite holds one unit test per function, one integration
      test per endpoint and one end-to-end test, in that order, and never
      advises adding end-to-end or integration tests. */
  lemma SuiteShape(extract: Extract, unitCall: Call, integrationCall: Call, e2eCall: Result<string>, request: TestRequest,
                   suite: TestSuite)
    requires Suite(extract, unitCall, integrationCall, e2eCall, request) == Ok(suite)
    ensures var analysis := Analysis(extract, request.codeChanges).value;
      && |suite.tests| == |analysis.functions| + |analysis.endpoints| + 1
      && (forall i :: 0 <= i < |analysis.functions| ==> suite.tests[i].testType == Unit)
      && (forall i :: |analysis.functions| <= i < |suite.tests| - 1 ==> suite.tests[i].testType == Integration)
      && suite.tests[|suite.tests| - 1].testType == E2E
      && AddE2ETests !in suite.recommendations
      && AddIntegrationTests !in suite.recommendations
  {
    var analysis := Analysis(extract, request.codeChanges).value;
    var unitRun := Tests(unitCall, Unit, UnitFramework(request), analysis.functions);
    var integrationRun := Tests(integrationCall, Integration, IntegrationFramework(request), analysis.endpoints);
    assert unitRun.Ok? && integrationRun.Ok? && e2eCall.Ok?;
    var unit := unitRun.value;
    var integration := integrationRun.value;
    var e2e := E2ETests(e2eCall).value;
    assert suite == Assemble(unit + integration + e2e, analysis);
    TestsOfKind(unitCall, Unit, UnitFramework(request), analysis.functions);
    TestsOfKind(integrationCall, Integration, IntegrationFramework(request), analysis.endpoints);
    Layered(unit, integration, e2e, analysis);
  }
}
