# A verified model of the codex agent suite

The codex agent suite turns a natural-language request into a chain of agent runs:

- a **spec** agent writes requirements, test cases and acceptance criteria;
- a **code** agent writes code changes and validates them;
- a **reviewer** scores those changes;
- a **test generator** writes a test suite;
- a **debug** agent reads logs and suggests fixes.

An **agent pipeline** runs a sequence of agents. Each agent gets an input built from the request and from the last successful agent's output. A failure is recorded as a warning and does not stop the pipeline. A **backend service** in front of the pipeline:

- resolves agent names given as strings;
- counts the requests it serves;
- turns the pipeline's answer into a status response.

A mock streaming completion hands out fixed content ten bytes at a time.

This project models all of that in Dafny and proves what each part promises.

**How the model is built**

- Pure logic is written as functions.
- The loops that build vectors and maps are methods. Each method is proved equal to a specification function, and the properties are proved about those functions.
- The service's counters and the stream's cursor are fields of classes.
- Every call to a language model is an **oracle**, meaning a function parameter that may fail. This covers the model provider and the parsing of its answer. Agents are invoked through an oracle too.
- When the source throws away a model's answer and substitutes hard-coded placeholder data, the oracle returns that data instead, so the placeholders become arbitrary inputs.

**Files**

| file | models |
|---|---|
| `wrappers.dfy` | `Option` and `Result` |
| `text.dfy` | the `str` operations the code uses |
| `json.dfy` | JSON values |
| `counting.dfy` | counting maps and de-duplication, shared by the reviewer and the test generator |
| `pipeline.dfy` | `codex/agents/src/lib.rs` |
| `orchestrator.dfy` | `codex/backend/orchestrator/src/lib.rs` |
| `stream.dfy` | `MockStreamCompletion`, which both the backend and the code agent define |
| `reviewer.dfy` | the reviewer agent |
| `code_agent.dfy` | the code agent |
| `spec_agent.dfy` | the spec agent |
| `test_generator.dfy` | the test generator agent |
| `debug_agent.dfy` | the debug agent |

## Model

| member | source | states |
|---|---|---|
| Pipeline.PrepareAgentInput | codex/agents/src/lib.rs:194-266 | the input is a JSON object whose keys are exactly the ones that agent type reads, and which keys those are depends on whether a previous output exists |
| Pipeline.SpecAndDebugIgnorePrevious | codex/agents/src/lib.rs:200-209 | the Spec and Debug inputs do not depend on the previous output |
| Pipeline.PriorShapeIffPrevious | codex/agents/src/lib.rs:210-255 | Code, TestGenerator and Reviewer inputs carry "requirements" iff a previous output exists; without one they carry only the prompt, and Code also the context |
| Pipeline.ExecuteAgent | codex/agents/src/lib.rs:152-192 | a step succeeds exactly when the agent call on the prepared input succeeds, and then it returns that input |
| Pipeline.SuccessCount | codex/agents/src/lib.rs:133 | the successful records never outnumber the records |
| Pipeline.Orchestrate | codex/agents/src/lib.rs:87-150 | the loop computes the specified response, and `orchestrate` never fails |
| Pipeline.AdvanceFacts | codex/agents/src/lib.rs:104-129 | one step appends exactly one record; a warning is added iff the step failed; the previous output changes only on success |
| Pipeline.AdvanceOutcome | codex/agents/src/lib.rs:107-121 | on success a step records the input and output and becomes the new previous output; on failure it records Null input, the error object and the error message |
| Pipeline.RunShape | codex/agents/src/lib.rs:104-130 | there is one record per resolved agent, in sequence order |
| Pipeline.RunPrefix | codex/agents/src/lib.rs:104-130 | running a prefix of the sequence yields a prefix of the records |
| Pipeline.PreviousIsLastSuccess | codex/agents/src/lib.rs:102-111 | the previous output, and so the final result, is the output of the last successful step, or absent |
| Pipeline.WarningsOfFailures | codex/agents/src/lib.rs:112-119 | there is one warning per failed record, in order, so there are as many warnings as failures |
| Pipeline.StepSeesLastSuccess | codex/agents/src/lib.rs:106-111 | a successful step `i` was fed the output of the last success before it |
| Pipeline.SuccessCountAppend | codex/agents/src/lib.rs:133 | appending a record adds one to the count iff that record succeeded |
| Pipeline.SuccessCountAllOrNone | codex/agents/src/lib.rs:133 | the count equals the length iff all records succeeded, and is 0 iff none did |
| Pipeline.SuccessRateBounds | codex/agents/src/lib.rs:133-138 | the rate lies in 0..100; it is 100 iff the list is non-empty and every step succeeded; it is 0 iff no step succeeded |
| Pipeline.RatioBounds | codex/agents/src/lib.rs:137 | a count over a positive total is a ratio in 0..1, equal to 1 or 0 exactly at the ends |
| Pipeline.OrchestrationFacts | codex/agents/src/lib.rs:140-149 | the records follow the resolved sequence; `agents_executed` is its length; the final result is the last success; the warnings are the failures; the rate is a percentage |
| Pipeline.DefaultOrder | codex/agents/src/lib.rs:93-100 | without a sequence the pipeline runs Spec, Code, Reviewer, TestGenerator |
| Pipeline.AllStepsFail | codex/agents/src/lib.rs:112-138 | if every call fails, no record succeeds, the final result is absent, the rate is 0 and there is one warning per agent |
| Pipeline.MiddleFailureRun | codex/agents/src/lib.rs:104-130 | the exact loop state for Spec, Code, Reviewer when only Code fails |
| Pipeline.MiddleFailureReusesEarlierOutput | codex/agents/src/lib.rs:102-149 | the Reviewer is then fed the Spec output; the result is the Reviewer's output; the rate is 200/3 and there is one warning |
| Orchestrator.ParseAgentNameSpellings | codex/backend/orchestrator/src/lib.rs:105-112 | a name resolves to an agent iff its lower-cased form is one of that agent's spellings, so case does not matter |
| Orchestrator.ReportedNamesResolve | codex/backend/orchestrator/src/lib.rs:105-112 | the names the service reports (`{:?}`) resolve back to their agents, except "TestGenerator", which resolves to nothing |
| Orchestrator.ResolveAgentNames | codex/backend/orchestrator/src/lib.rs:102-113 | resolution keeps at most one agent per name |
| Orchestrator.ResolveConcat | codex/backend/orchestrator/src/lib.rs:102-113 | resolution distributes over concatenation, so order is kept and unknown names are dropped where they stand |
| Orchestrator.ResolveMembers | codex/backend/orchestrator/src/lib.rs:102-113 | an agent is resolved iff some given name parses to it |
| Orchestrator.RecognisedMember | codex/backend/orchestrator/src/lib.rs:102-113 | an agent is kept by the `filter_map` iff some parse produced it |
| Orchestrator.DefaultNamesResolve | codex/backend/orchestrator/src/lib.rs:103 | the default names resolve to Spec, Code, Reviewer |
| Orchestrator.Flatten | codex/backend/orchestrator/src/lib.rs:117-127 | the flattened context is present iff it was given; an object keeps its keys, each with its rendered value; anything else becomes the empty map |
| Orchestrator.ReportedNames | codex/backend/orchestrator/src/lib.rs:144 | one reported name per resolved agent |
| Orchestrator.StatusResponse | codex/backend/orchestrator/src/lib.rs:131-163 | Completed, success and a result iff the pipeline succeeded; otherwise Failed with the error message, which is also the metadata error; the resolved names are reported either way |
| Orchestrator.RespondCompletes | codex/backend/orchestrator/src/lib.rs:102-163 | every request completes with a result, and the pipeline runs exactly the resolved names, so its own default is never used |
| Orchestrator.RespondDefaultNames | codex/backend/orchestrator/src/lib.rs:102-144 | without names the service reports ["Spec", "Code", "Reviewer"] |
| Orchestrator.AgentOrchestrator.constructor | codex/backend/orchestrator/src/lib.rs:68-85 | both counters start at 0 |
| Orchestrator.AgentOrchestrator.ProcessRequest | codex/backend/orchestrator/src/lib.rs:87-175 | the total grows by one; the number of active sessions is back to its old value on return; the response is the specified one |
| MockStream.ChunksReassemble | codex/backend/orchestrator/src/lib.rs:222-231 | the chunks still to come, concatenated, are exactly the content not yet handed out |
| MockStream.ChunkSizes | codex/backend/orchestrator/src/lib.rs:222-231 | every chunk has 1 to 10 bytes, and there are ceil(remaining/10) of them |
| MockStream.StreamCompletion.constructor | codex/backend/orchestrator/src/lib.rs:215-217 | the stream starts at position 0 |
| MockStream.StreamCompletion.Next | codex/agents/code/src/lib.rs:107-118 | `None` iff the content is used up; otherwise the next 1 to 10 bytes; the chunks still to come lose exactly that chunk |
| Reviewer.ForFile | codex/agents/reviewer/src/lib.rs:403-405 | the findings for a file are exactly those whose path is that file |
| Reviewer.KindsFor | codex/agents/reviewer/src/lib.rs:210-237 | the quality and best-practice reviews always run, and run last |
| Reviewer.ReviewSingleChangeRunsKinds | codex/agents/reviewer/src/lib.rs:210-237 | reviewing a change runs the focus reviews, then the two fixed ones, concatenating their findings and stopping at the first error |
| Reviewer.CollectFindingsOk | codex/agents/reviewer/src/lib.rs:184-187 | collection succeeds iff every change's review does |
| Reviewer.CollectFindingsErr | codex/agents/reviewer/src/lib.rs:184-187 | the first failing change's error is the error of the whole collection |
| Reviewer.DiffFor | codex/agents/reviewer/src/lib.rs:403-418 | a diff keeps the file path; its score lies in 0..100, and is 100 iff that file has no critical or high finding |
| Reviewer.DiffIgnoresOtherFiles | codex/agents/reviewer/src/lib.rs:403-405 | findings for other files do not change a file's diff |
| Reviewer.GenerateAnnotatedDiffs | codex/agents/reviewer/src/lib.rs:369-422 | one diff per change, in order, as specified |
| Reviewer.QualityScore | codex/agents/reviewer/src/lib.rs:438-442 | the quality score lies in 0..100 and is 100 without findings |
| Reviewer.SecurityScore | codex/agents/reviewer/src/lib.rs:444-445 | the security score lies in 0..100 and is 100 iff there is no security finding |
| Reviewer.MaintainabilityScore | codex/agents/reviewer/src/lib.rs:447-450 | the maintainability score lies in 0..100 and is 100 iff there is no code-smell or best-practice finding |
| Reviewer.SummaryCounts | codex/agents/reviewer/src/lib.rs:424-460 | the total is the number of findings; each severity and each category maps to its count; a severity is a key iff some finding has it; the counts add up to the total |
| Reviewer.SeverityOccurs | codex/agents/reviewer/src/lib.rs:424-460 | a severity is among the findings' severities iff some finding has it |
| Reviewer.GenerateSummary | codex/agents/reviewer/src/lib.rs:424-431 | the counting loop builds the specified summary |
| Reviewer.Recommendations | codex/agents/reviewer/src/lib.rs:462-481 | the "fix N critical" line iff there is a critical finding, and it comes first; the security line iff there is a security finding; the coverage line iff there is no testing finding, and it comes last |
| Reviewer.DetermineApproval | codex/agents/reviewer/src/lib.rs:483-498 | one iff per outcome: Rejected iff a critical finding; otherwise RequiresChanges iff more than 3 high findings or quality below 70, Approved iff no high finding and quality 90 or more, ApprovedWithComments in the remaining case |
| Reviewer.ApprovalByCounts | codex/agents/reviewer/src/lib.rs:434-498 | with the summary's own quality score, approval depends on the critical and high counts alone |
| Reviewer.ReviewNoChanges | codex/agents/reviewer/src/lib.rs:180-208 | a review of no changes succeeds, is Approved with quality 100, and only recommends test coverage |
| Reviewer.ReviewChanges | codex/agents/reviewer/src/lib.rs:180-208 | the review is the specified report, or the first review error |
| CodeAgent.ValidateChanges | codex/agents/code/src/lib.rs:221-247 | the loop collects the specified dependencies and warnings; the result is valid iff there is no warning |
| CodeAgent.WarningsBound | codex/agents/code/src/lib.rs:225-240 | at most two warnings per change, and each names a changed file |
| CodeAgent.ValidIffClean | codex/agents/code/src/lib.rs:233-243 | no warnings iff no change contains "TODO" and every confidence is at least 0.7 |
| CodeAgent.DependenciesAreBcrypt | codex/agents/code/src/lib.rs:227-230 | every dependency is "bcrypt"; there is at most one per change, and none iff no change imports anything |
| CodeAgent.DetectLanguage | codex/agents/code/src/lib.rs:266-278 | the language is one of the five names |
| CodeAgent.DetectLanguageBySuffix | codex/agents/code/src/lib.rs:266-278 | each language is detected iff the path ends with one of its own suffixes |
| CodeAgent.ComplexityBucket | codex/agents/code/src/lib.rs:285-290 | the complexity lies between 0.3 and 0.9 |
| CodeAgent.ComplexityMonotone | codex/agents/code/src/lib.rs:285-290 | more lines never lower the complexity |
| CodeAgent.ComplexityGrows | codex/agents/code/src/lib.rs:280-291 | adding changes never lowers the complexity, and empty contents give 0.3 |
| CodeAgent.TotalLinesGrows | codex/agents/code/src/lib.rs:281-283 | adding changes never lowers the line total |
| CodeAgent.TotalLinesEmpty | codex/agents/code/src/lib.rs:281-283 | empty contents have no lines |
| CodeAgent.GenerateMetadata | codex/agents/code/src/lib.rs:249-264 | the language is that of some changed file, or "javascript" when there is none; the patterns, the framework and the complexity are passed through |
| CodeAgent.MetadataSingleLanguage | codex/agents/code/src/lib.rs:250-256 | when all files share a language, that language is reported whatever the set order |
| CodeAgent.GenerateCode | codex/agents/code/src/lib.rs:126-145 | the result is Ok iff both model calls succeed; the analysis error, or else the generation error, is the result's error; on success the stream carries the changes, metadata, dependencies and warnings |
| SpecAgent.TestCaseIdInjective | codex/agents/spec/src/lib.rs:222 | distinct requirement ids give distinct test-case ids |
| SpecAgent.TestCaseFor | codex/agents/spec/src/lib.rs:221-233 | a test case names its requirement and is numbered "TC-<id>-001" |
| SpecAgent.TestCases | codex/agents/spec/src/lib.rs:206-237 | a successful run has one test case per requirement |
| SpecAgent.TestCasesFacts | codex/agents/spec/src/lib.rs:206-237 | the run succeeds iff every call does; the `i`-th case is made from the `i`-th requirement; a failure reports the first failing call |
| SpecAgent.GenerateTestCases | codex/agents/spec/src/lib.rs:206-237 | the loop computes the specified test cases or the first error |
| SpecAgent.CriteriaMapFacts | codex/agents/spec/src/lib.rs:265-276 | the keys are exactly the requirement ids, and a repeated id keeps the criteria of its last requirement |
| SpecAgent.CriteriaMapKeys | codex/agents/spec/src/lib.rs:265-276 | the map's keys are exactly the requirement ids |
| SpecAgent.CriteriaMapLast | codex/agents/spec/src/lib.rs:265-276 | a requirement whose id no later one repeats is present with its own criteria |
| SpecAgent.GenerateAcceptanceCriteria | codex/agents/spec/src/lib.rs:265-276 | the loop builds the specified map |
| SpecAgent.ComplexityMonotone | codex/agents/spec/src/lib.rs:280-285 | more requirements never lower the complexity |
| SpecAgent.CriticalCount | codex/agents/spec/src/lib.rs:279 | the number of critical requirements never exceeds the number of requirements |
| SpecAgent.GenerateMetadata | codex/agents/spec/src/lib.rs:278-301 | risk is High iff there are more than 2 critical requirements, Medium iff not and there are more than 12 requirements, Low otherwise, and never Critical; complexity follows the count |
| SpecAgent.SimpleSpecRisk | codex/agents/spec/src/lib.rs:280-293 | up to 3 requirements: Simple, never Medium risk, and High iff all 3 are critical |
| SpecAgent.GenerateSpec | codex/agents/spec/src/lib.rs:143-166 | each stage's error is propagated in order; on success the response assembles the requirements, test cases, stories, criteria map and metadata |
| SpecAgent.SpecCoversRequirements | codex/agents/spec/src/lib.rs:143-166 | every requirement of a successful specification has its test case and a criteria entry |
| TestGenerator.DetectFramework | codex/agents/test-generator/src/lib.rs:162-174 | one of five names; "jest" iff the path contains "jest" or ends in ".test.js"; "rspec", "pytest" and "rust test" only on their own word or suffix; "unknown" only when no word or suffix matched, so a cargo path ending in ".rs" with no earlier match is a rust test |
| TestGenerator.PytestNameNotRecognised | codex/agents/test-generator/src/lib.rs:167 | the literal "test_*.py" suffix leaves "test_a.py" as "unknown" |
| TestGenerator.PytestNameHasNoWord | codex/agents/test-generator/src/lib.rs:163-169 | "test_a.py" contains none of "jest", "rspec", "pytest", "cargo" |
| TestGenerator.AnalysisNoFramework | codex/agents/test-generator/src/lib.rs:146-151 | with no path mentioning "test" or "spec", no framework is set |
| TestGenerator.AnalysisFramework | codex/agents/test-generator/src/lib.rs:146-151 | the framework is that of the last change whose path mentions "test" or "spec" |
| TestGenerator.AnalysisErr | codex/agents/test-generator/src/lib.rs:153 | the first failing extraction is the error of the whole analysis |
| TestGenerator.AnalyzeChanges | codex/agents/test-generator/src/lib.rs:143-160 | the loop concatenates the elements in change order, as specified |
| TestGenerator.Sanitize | codex/agents/test-generator/src/lib.rs:252 | sanitising keeps the length, leaves no '/' or ' ', and keeps every other character |
| TestGenerator.SanitizeIdempotent | codex/agents/test-generator/src/lib.rs:252 | sanitising twice is sanitising once |
| TestGenerator.Tests | codex/agents/test-generator/src/lib.rs:198-267 | a successful run has one test per item |
| TestGenerator.TestsFacts | codex/agents/test-generator/src/lib.rs:198-267 | the run succeeds iff every call does, and then the `i`-th test is made from the `i`-th item and answer |
| TestGenerator.TestsOfKind | codex/agents/test-generator/src/lib.rs:215-255 | every generated test has the requested type |
| TestGenerator.TestsErr | codex/agents/test-generator/src/lib.rs:213 | the first failing call is the error of the whole run |
| TestGenerator.WriteTests | codex/agents/test-generator/src/lib.rs:198-267 | the shared loop computes the specified tests or the first error |
| TestGenerator.GenerateUnitTests | codex/agents/test-generator/src/lib.rs:198-231 | one unit test per function, in the request's framework or jest |
| TestGenerator.GenerateIntegrationTests | codex/agents/test-generator/src/lib.rs:233-267 | one integration test per endpoint, in the request's framework or supertest |
| TestGenerator.E2ETests | codex/agents/test-generator/src/lib.rs:269-297 | exactly one E2E test iff the call succeeds |
| TestGenerator.FixtureParts | codex/agents/test-generator/src/lib.rs:299-329 | there are as many setup parts as teardown parts, one per jest or pytest test; setup is absent iff teardown is absent iff no test uses either |
| TestGenerator.PartsBalanced | codex/agents/test-generator/src/lib.rs:299-329 | every jest or pytest test adds one setup part and one teardown part |
| TestGenerator.SetupPartsEmpty | codex/agents/test-generator/src/lib.rs:299-329 | there is no setup part iff no test uses jest or pytest |
| TestGenerator.GenerateSetupTeardown | codex/agents/test-generator/src/lib.rs:299-330 | the loop builds the specified setup and teardown code |
| TestGenerator.MetadataFacts | codex/agents/test-generator/src/lib.rs:332-352 | the total is the test count; each type maps to its count and the counts add up to the total; the frameworks are listed once each, exactly those used |
| TestGenerator.GenerateMetadata | codex/agents/test-generator/src/lib.rs:332-352 | the counting loop builds the specified metadata |
| TestGenerator.Recommendations | codex/agents/test-generator/src/lib.rs:354-370 | "more unit tests" iff tests < 2·functions, and first; "integration" iff there are endpoints and no integration test; "E2E" iff every test is a unit test, and last |
| TestGenerator.GenerateTests | codex/agents/test-generator/src/lib.rs:109-141 | the suite is the specified one, or the first stage's error |
| TestGenerator.Layered | codex/agents/test-generator/src/lib.rs:354-370 | unit, then integration, then one E2E test keep their types in place and never trigger the E2E or integration advice |
| TestGenerator.SuiteShape | codex/agents/test-generator/src/lib.rs:109-141 | a suite has one unit test per function, one integration test per endpoint and one E2E test, in that order, and never recommends E2E or integration tests |
| DebugAgent.Sample | codex/agents/debug/src/lib.rs:248 | the pattern prompt sees a prefix of the logs, at most 50 entries, or all of them when there are fewer |
| DebugAgent.ErrorLogs | codex/agents/debug/src/lib.rs:300-307 | only Error or Fatal entries are kept |
| DebugAgent.ErrorLogsMembers | codex/agents/debug/src/lib.rs:300-307 | an entry is kept iff it is an Error or Fatal log |
| DebugAgent.SelectErrorLogs | codex/agents/debug/src/lib.rs:299-307 | the loop selects the specified logs |
| DebugAgent.RootCauses | codex/agents/debug/src/lib.rs:348-374 | a successful run has one root cause per issue |
| DebugAgent.RootCausesFacts | codex/agents/debug/src/lib.rs:351-370 | the run succeeds iff every call does; the `i`-th root cause is "RC-" followed by the `i`-th issue id; distinct issue ids give distinct root-cause ids |
| DebugAgent.RootCausesOk | codex/agents/debug/src/lib.rs:351-370 | the run succeeds iff every per-issue call does |
| DebugAgent.RootCauseIds | codex/agents/debug/src/lib.rs:351-370 | the `i`-th root cause is "RC-" followed by the `i`-th issue id |
| DebugAgent.RootCausesErr | codex/agents/debug/src/lib.rs:359 | the first failing call is the error of the whole run |
| DebugAgent.AnalyzeRootCauses | codex/agents/debug/src/lib.rs:348-374 | the loop computes the specified root causes or the first error |
| DebugAgent.CriticalCount | codex/agents/debug/src/lib.rs:379 | the critical count is positive iff some issue is critical |
| DebugAgent.CountCritical | codex/agents/debug/src/lib.rs:379 | the filter-count computes the critical count |
| DebugAgent.CategoryRecommendationsFacts | codex/agents/debug/src/lib.rs:395-425 | the `k`-th recommendation belongs to the `k`-th performance or memory issue, in issue order: High, id "REC-PERF-" or "REC-MEM-" by its category followed by its id, title "Optimize " or "Fix " followed by its title, its description; no other issue yields one |
| DebugAgent.WorkIssuesMembers | codex/agents/debug/src/lib.rs:395-425 | an issue is among the filtered ones iff it is a performance or memory issue |
| DebugAgent.CategoryRecommendationsAligned | codex/agents/debug/src/lib.rs:395-425 | the `k`-th recommendation is the one the `k`-th performance or memory issue calls for |
| DebugAgent.RecommendationsFacts | codex/agents/debug/src/lib.rs:376-428 | "REC-001", Immediate, with the critical count in its description, comes first iff some issue is critical; then, in issue order, the recommendations of the performance and memory issues, all High |
| DebugAgent.RecommendationsShape | codex/agents/debug/src/lib.rs:376-428 | the Immediate entry leads iff some issue is critical, followed by the per-category recommendations in order, all High |
| DebugAgent.HighOnly | codex/agents/debug/src/lib.rs:395-425 | every per-category recommendation is High |
| DebugAgent.GenerateRecommendations | codex/agents/debug/src/lib.rs:376-428 | the loop builds the specified recommendations |
| DebugAgent.CategoryPass | codex/agents/debug/src/lib.rs:394-425 | the loop over the issues yields exactly the per-category recommendations, in issue order |
| DebugAgent.FixPatch | codex/agents/debug/src/lib.rs:449-469 | a fix request succeeds iff the model call does, and never yields a patch |
| DebugAgent.IssuePatchesFacts | codex/agents/debug/src/lib.rs:435-442 | an issue's patches succeed iff every fix asked for one of its affected files succeeds, and there are none |
| DebugAgent.PatchesUpToFacts | codex/agents/debug/src/lib.rs:433-444 | the first `k` pairs succeed iff every fix asked for them succeeds, and yield no patch |
| DebugAgent.PatchesFacts | codex/agents/debug/src/lib.rs:430-447 | no patch is ever suggested; the run fails iff some file is given, some fix asked for a paired issue and a file it affects fails, and issues past the shorter list are never looked at |
| DebugAgent.IssuePatchesErr | codex/agents/debug/src/lib.rs:437 | a failing fix is the error of the issue's whole run |
| DebugAgent.PatchesUpToErr | codex/agents/debug/src/lib.rs:437 | a failing pair is the error of all later prefixes |
| DebugAgent.GeneratePatchSuggestions | codex/agents/debug/src/lib.rs:430-447 | the nested loop computes the specified patches or the first error |
| DebugAgent.PatternsAdviceFacts | codex/agents/debug/src/lib.rs:474-487 | one line per monitored pattern, in pattern order: the error-rate alert for an error spike, the memory alert for memory growth, the query monitor for a slow query |
| DebugAgent.MonitoredPatternsMembers | codex/agents/debug/src/lib.rs:474-487 | a pattern is among the filtered ones iff it is an error spike, memory growth or slow query |
| DebugAgent.MonitoringFacts | codex/agents/debug/src/lib.rs:471-493 | the per-pattern alerts in pattern order, then the two fixed lines, so always at least two |
| DebugAgent.GenerateMonitoringRecommendations | codex/agents/debug/src/lib.rs:471-493 | the loop builds the specified advice |
| DebugAgent.GenerateNextSteps | codex/agents/debug/src/lib.rs:495-511 | the loop computes exactly NextStepsOf |
| DebugAgent.NextStepsFacts | codex/agents/debug/src/lib.rs:495-511 | 3 to 5 steps; the critical step first iff some issue is critical; the audit step iff there are more than 5 issues; the three fixed steps last |
| DebugAgent.AnalyzeLogs | codex/agents/debug/src/lib.rs:198-234 | the report is produced iff the pattern, issue, root-cause and patch stages all succeed, and otherwise the first failing stage's error is the result; the pattern call sees the sample and the issue call the error logs; the report assembles the root causes, recommendations, no patches, monitoring advice and the next steps of the issues, at confidence 0.85 |

## Left out

- Language-model calls, prompt text and the parsing of answers are oracles. The placeholder findings, issues, patterns, requirements, stories and testable elements they stand for are arbitrary inputs.
- Log lines are passed to the oracles as entries, not as the formatted prompt text.
- serde (de)serialisation in `execute_agent` is part of the `invoke` oracle. A request that does not fit its agent is one more way for a step to fail.
- JSON rendering (`v.to_string()`) in the backend's flattening is a `render` parameter.
- Clocks, durations, timestamps and request ids are left out. The request id is a parameter.
- The tokio `Mutex` around the service counters is left out. The counters are updated one request at a time, and `active_sessions` is modelled as rising and falling again within `ProcessRequest`.
- The backend's HTTP server (`main.rs`) and the GitHub integration are not part of this model. They are I/O plumbing with no logic of their own.
- The two calls that lack `.await` are modelled as their evident intent, an awaited call: `extract_testable_elements(...)?` in the test generator and `generate_patch_suggestions(...)?` in the debug agent.
- The source also uses `agent_sequence` after moving it and compares values without `PartialEq`. These are modelled by the evident intent.
- f32 scores, confidences and rates are modelled as `int` and `real`. Rounding and NaN are not captured.
- The `usize` session counter and the `u64` request counter are unbounded naturals; neither overflow is modelled.
- `Text.ToLower` folds ASCII letters only, while the source uses Unicode `to_lowercase`. The seven accepted spellings are ASCII, so only names that fold to them through non-ASCII letters could resolve differently.
- Placeholder fields the logic never reads are left out of the data types: the spec agent's `TestCase.steps` and `expected_result`, the debug agent's `LogPattern.severity` and `examples`, and `PatchSuggestion.explanation` and `confidence`.
- `DebugRequest.debug_focus` and `LogEntry.context` are never read by the debug agent and are left out.
- CodeAgent.GenerateMetadata: the language comes from a `HashSet` whose iteration order is unspecified. The model takes the entry a `pick` parameter selects, so it states only that the language belongs to some changed file.
- TestGenerator.MetadataOf: `frameworks_used` comes from a `HashSet`. It is modelled in first-occurrence order, so only its members and their uniqueness are claimed.
- TestGenerator.MetadataOf: the distribution keys are test types rather than their `{:?}` strings. The two are in one-to-one correspondence.
- Reviewer.SummaryOf: the same holds for the severity and category keys.
- Findings keep only the fields the logic reads: id, path, severity and category. Line numbers, titles, descriptions and suggestions are left out.
- Placeholder data inside the modelled functions is left out: diff hunks, test coverage figures, reproduction steps and the evidence texts.
- CodeAgent.ValidateChanges: a low-confidence warning carries the confidence and the path rather than the `{:.2}`-formatted text.
- MockStream.StreamCompletion.Next: the content is modelled as bytes. The source slices a `String` by byte offsets, which panics when a chunk boundary falls inside a multi-byte character; the model does not capture that panic.
