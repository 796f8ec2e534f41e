/** The spec agent (codex/agents/spec/src/lib.rs): from a feature request it
    obtains requirements, one test case per requirement, user stories, an
    acceptance-criteria map and metadata with complexity and risk.

    The language-model steps are oracles: `requirementsOf` and `storiesOf`
    return what the model's answer is parsed into, and `testCall(i, r)` is
    the outcome of the call made for the `i`-th requirement. */
module SpecAgent {
  import opened Wrappers

  datatype SpecRequest = SpecRequest(
    prompt: string,
    context: Option<map<string, string>>,
    projectType: Option<string>,
    existingRequirements: Option<seq<string>>)

  datatype Priority = Critical | High | Medium | Low

  datatype RequirementCategory = Functional | NonFunctional | Technical | Security | Performance | Usability

  datatype Requirement = Requirement(
    id: string,
    title: string,
    description: string,
    priority: Priority,
    category: RequirementCategory,
    acceptanceCriteria: seq<string>)

  datatype TestType = Unit | Integration | E2E | Manual | Regression

  /** A generated test case, without its placeholder steps and expected
      result. */
  datatype TestCase = TestCase(id: string, title: string, description: string, testType: TestType, requirementId: string)

  datatype UserStory = UserStory(id: string, title: string, description: string, role: string, goal: string, benefit: string)

  datatype Complexity = Simple | Moderate | Complex | VeryComplex

  datatype RiskLevel = Low | Medium | High | Critical

  datatype SpecMetadata = SpecMetadata(
    estimatedEffort: string,
    complexity: Complexity,
    dependencies: seq<string>,
    riskLevel: RiskLevel)

  datatype SpecResponse = SpecResponse(
    requirements: seq<Requirement>,
    testCases: seq<TestCase>,
    userStories: seq<UserStory>,
    acceptanceCriteria: map<string, seq<string>>,
    metadata: SpecMetadata)

  type TestCall = (nat, Requirement) -> Result<string>

  // ---------------------------------------------------------------------
  // Test cases

  function TestCaseId(requirementId: string): string {
    "TC-" + requirementId + "-001"
  }

  /** Distinct requirement ids give distinct test case ids. */
  lemma TestCaseIdInjective(a: string, b: string)
    requires TestCaseId(a) == TestCaseId(b)
    ensures a == b
  {
    var ta, tb := TestCaseId(a), TestCaseId(b);
    assert |a| == |b|;
    assert a == ta[3..|ta| - 4];
    assert b == tb[3..|tb| - 4];
  }

  /** The test case made for one requirement. */
  function TestCaseFor(r: Requirement): (t: TestCase)
    ensures t.requirementId == r.id && t.id == TestCaseId(r.id)
  {
    TestCase(TestCaseId(r.id), "Test " + r.title, "Verify " + r.description, Unit, r.id)
  }

  /** The test cases of the requirements, one model call each, stopping at
      the first failing call. */
  function TestCases(testCall: TestCall, requirements: seq<Requirement>): (r: Result<seq<TestCase>>)
    ensures r.Ok? ==> |r.value| == |requirements|
  {
    if requirements == [] then Ok([])
    else
      var n := |requirements| - 1;
      var earlier :- TestCases(testCall, requirements[..n]);
      var _ :- testCall(n, requirements[n]);
      Ok(earlier + [TestCaseFor(requirements[n])])
  }

  /** Test case generation succeeds exactly when every call does; then there
      is one test case per requirement, in requirement order, and otherwise
      the error is that of the first failing call. */
  lemma {:induction false} TestCasesFacts(testCall: TestCall, requirements: seq<Requirement>)
    ensures TestCases(testCall, requirements).Ok? <==>
      forall i :: 0 <= i < |requirements| ==> testCall(i, requirements[i]).Ok?
    ensures TestCases(testCall, requirements).Ok? ==>
      TestCases(testCall, requirements).value == seq(|requirements|, i requires 0 <= i < |requirements| => TestCaseFor(requirements[i]))
    ensures TestCases(testCall, requirements).Err? ==>
      exists i :: 0 <= i < |requirements| && testCall(i, requirements[i]).Err? &&
        TestCases(testCall, requirements).error == testCall(i, requirements[i]).error &&
        forall j :: 0 <= j < i ==> testCall(j, requirements[j]).Ok?
    decreases |requirements|
  {
    if requirements != [] {
      var n := |requirements| - 1;
      var prefix := requirements[..n];
      TestCasesFacts(testCall, prefix);
      assert forall i :: 0 <= i < n ==> prefix[i] == requirements[i];
      if TestCases(testCall, prefix).Ok? && testCall(n, requirements[n]).Err? {
        assert forall j :: 0 <= j < n ==> testCall(j, requirements[j]).Ok?;
      }
    }
  }

  /** `generate_test_cases`. */
  method GenerateTestCases(testCall: TestCall, requirements: seq<Requirement>) returns (r: Result<seq<TestCase>>)
    ensures r == TestCases(testCall, requirements)
  {
    var testCases: seq<TestCase> := [];
    for i := 0 to |requirements|
      invariant TestCases(testCall, requirements[..i]) == Ok(testCases)
    {
      assert requirements[..i + 1][..i] == requirements[..i];
      var response := testCall(i, requirements[i]);
      if response.Err? {
        TestCasesErr(testCall, requirements, i + 1);
        return Err(response.error);
      }
      testCases := testCases + [TestCaseFor(requirements[i])];
    }
    assert requirements[..|requirements|] == requirements;
    r := Ok(testCases);
  }

  /** An error among the first `n` calls is the error of the whole run. */
  lemma {:induction false} TestCasesErr(testCall: TestCall, requirements: seq<Requirement>, n: nat)
    requires n <= |requirements|
    requires TestCases(testCall, requirements[..n]).Err?
    ensures TestCases(testCall, requirements) == TestCases(testCall, requirements[..n])
    decreases |requirements|
  {
    if n < |requirements| {
      var prefix := requirements[..|requirements| - 1];
      assert prefix[..n] == requirements[..n];
      TestCasesErr(testCall, prefix, n);
    } else {
      assert requirements[..n] == requirements;
    }
  }

  // ---------------------------------------------------------------------
  // Acceptance criteria

  /** The map built by inserting every requirement's criteria under its id,
      in requirement order. */
  function CriteriaMap(requirements: seq<Requirement>): map<string, seq<string>> {
    if requirements == [] then map[]
    else
      var last := requirements[|requirements| - 1];
      CriteriaMap(requirements[..|requirements| - 1])[last.id := last.acceptanceCriteria]
  }

  /** The keys of the map are exactly the requirement ids. */
  lemma {:induction false} CriteriaMapKeys(requirements: seq<Requirement>)
    ensures CriteriaMap(requirements).Keys == set r | r in requirements :: r.id
    decreases |requirements|
  {
    if requirements != [] {
      var n := |requirements| - 1;
      var prefix := requirements[..n];
      CriteriaMapKeys(prefix);
      assert forall r :: r in requirements <==> r in prefix || r == requirements[n];
    }
  }

  /** A requirement whose id no later requirement repeats keeps its criteria. */
  lemma {:induction false} CriteriaMapLast(requirements: seq<Requirement>, i: nat)
    requires i < |requirements|
    requires forall j :: i < j < |requirements| ==> requirements[j].id != requirements[i].id
    ensures requirements[i].id in CriteriaMap(requirements)
    ensures CriteriaMap(requirements)[requirements[i].id] == requirements[i].acceptanceCriteria
    decreases |requirements|
  {
    var n := |requirements| - 1;
    if i < n {
      var prefix := requirements[..n];
      assert prefix[i] == requirements[i];
      forall j | i < j < n ensures prefix[j].id != prefix[i].id {
        assert prefix[j] == requirements[j];
      }
      CriteriaMapLast(prefix, i);
    }
  }

  /** The keys are the requirement ids, and each id maps to the criteria of
      the last requirement carrying it. */
  lemma CriteriaMapFacts(requirements: seq<Requirement>)
    ensures CriteriaMap(requirements).Keys == set r | r in requirements :: r.id
    ensures forall i :: 0 <= i < |requirements| && (forall j :: i < j < |requirements| ==> requirements[j].id != requirements[i].id) ==>
      CriteriaMap(requirements)[requirements[i].id] == requirements[i].acceptanceCriteria
  {
    CriteriaMapKeys(requirements);
    forall i | 0 <= i < |requirements| && (forall j :: i < j < |requirements| ==> requirements[j].id != requirements[i].id)
      ensures CriteriaMap(requirements)[requirements[i].id] == requirements[i].acceptanceCriteria
    {
      CriteriaMapLast(requirements, i);
    }
  }

  /** `generate_acceptance_criteria`, which cannot fail. */
  method GenerateAcceptanceCriteria(requirements: seq<Requirement>) returns (criteria: map<string, seq<string>>)
    ensures criteria == CriteriaMap(requirements)
  {
    criteria := map[];
    for i := 0 to |requirements|
      invariant criteria == CriteriaMap(requirements[..i])
    {
      assert requirements[..i + 1][..i] == requirements[..i];
      criteria := criteria[requirements[i].id := requirements[i].acceptanceCriteria];
    }
    assert requirements[..|requirements|] == requirements;
  }

  // ---------------------------------------------------------------------
  // Metadata

  function ComplexityOf(count: nat): Complexity {
    if count <= 3 then Simple
    else if count <= 7 then Moderate
    else if count <= 12 then Complex
    else VeryComplex
  }

  function Rank(c: Complexity): nat {
    match c
    case Simple => 0
    case Moderate => 1
    case Complex => 2
    case VeryComplex => 3
  }

  /** More requirements never mean a simpler specification. */
  lemma ComplexityMonotone(a: nat, b: nat)
    requires a <= b
    ensures Rank(ComplexityOf(a)) <= Rank(ComplexityOf(b))
  {
  }

  function CriticalCount(requirements: seq<Requirement>): (n: nat)
    ensures n <= |requirements|
  {
    if requirements == [] then 0
    else CriticalCount(requirements[..|requirements| - 1]) + (if requirements[|requirements| - 1].priority == Priority.Critical then 1 else 0)
  }

  /** `generate_metadata`: complexity by requirement count, risk by the
      number of critical requirements and then by complexity. */
  function GenerateMetadata(request: SpecRequest, requirements: seq<Requirement>): (m: SpecMetadata)
    ensures m.riskLevel == RiskLevel.High <==> CriticalCount(requirements) > 2
    ensures m.riskLevel == RiskLevel.Medium <==> CriticalCount(requirements) <= 2 && |requirements| > 12
    ensures m.riskLevel == RiskLevel.Low <==> CriticalCount(requirements) <= 2 && |requirements| <= 12
    ensures m.riskLevel != RiskLevel.Critical
    ensures m.complexity == ComplexityOf(|requirements|)
  {
    var complexity := ComplexityOf(|requirements|);
    var risk :=
      if CriticalCount(requirements) > 2 then RiskLevel.High
      else if complexity == VeryComplex then RiskLevel.Medium
      else RiskLevel.Low;
    SpecMetadata("2-3 weeks", complexity, ["Authentication service"], risk)
  }

  /** With at most three requirements the specification is simple, it is
      never of medium risk, and its risk is high exactly when there are three
      requirements and all are critical. */
  lemma SimpleSpecRisk(request: SpecRequest, requirements: seq<Requirement>)
    requires |requirements| <= 3
    ensures GenerateMetadata(request, requirements).complexity == Simple
    ensures GenerateMetadata(request, requirements).riskLevel != RiskLevel.Medium
    ensures GenerateMetadata(request, requirements).riskLevel == RiskLevel.High <==> CriticalCount(requirements) == 3
  {
  }

  // ---------------------------------------------------------------------
  // Assembly

  /** `generate_spec`: requirements, test cases, user stories, criteria and
      metadata, in that order, stopping at the first failure. */
  method GenerateSpec(
    requirementsOf: SpecRequest -> Result<seq<Requirement>>,
    testCall: TestCall,
    storiesOf: (SpecRequest, seq<Requirement>) -> Result<seq<UserStory>>,
    request: SpecRequest)
    returns (r: Result<SpecResponse>)
    ensures requirementsOf(request).Err? ==> r == Err(requirementsOf(request).error)
    ensures requirementsOf(request).Ok? ==>
      var requirements := requirementsOf(request).value;
      var testCases := TestCases(testCall, requirements);
      var stories := storiesOf(request, requirements);
      && (testCases.Err? ==> r == Err(testCases.error))
      && (testCases.Ok? && stories.Err? ==> r == Err(stories.error))
      && (testCases.Ok? && stories.Ok? ==>
            r == Ok(SpecResponse(requirements, testCases.value, stories.value,
                   CriteriaMap(requirements), GenerateMetadata(request, requirements))))
  {
    var requirements :- requirementsOf(request);
    var testCases :- GenerateTestCases(testCall, requirements);
    var stories :- storiesOf(request, requirements);
    var criteria := GenerateAcceptanceCriteria(requirements);
    var metadata := GenerateMetadata(request, requirements);
    r := Ok(SpecResponse(requirements, testCases, stories, criteria, metadata));
  }

  /** Every requirement of a successful specification has its test case and
      its entry in the criteria map. */
  lemma SpecCoversRequirements(testCall: TestCall, requirements: seq<Requirement>, i: nat)
    requires i < |requirements|
    requires TestCases(testCall, requirements).Ok?
    ensures TestCases(testCall, requirements).value[i] == TestCaseFor(requirements[i])
    ensures requirements[i].id in CriteriaMap(requirements)
  {
    TestCasesFacts(testCall, requirements);
    CriteriaMapFacts(requirements);
    assert requirements[i] in requirements;
  }
}
