/** The agent-orchestration pipeline (`AgentSuite` in codex/agents/src/lib.rs):
    it resolves the agent sequence, builds each agent's input from the original
    request and the last successful output, runs the agent, turns a failure into
    a failed record and a warning, and finally folds the records into a result,
    a success rate and a warning list.

    The agent registry (five agents behind `Arc`s, each reached through serde
    conversions) is the parameter `invoke`: given the step's position, the agent
    type and the prepared input, it yields the agent's output or an error
    message. A failing conversion of the input into the agent's typed request
    is one more way for `invoke` to fail. */
module Pipeline {
  import opened Wrappers
  import opened Json

  datatype AgentType = Spec | Code | TestGenerator | Reviewer | Debug

  /** `format!("{:?}", agent_type)`. */
  function TypeName(t: AgentType): string {
    match t
    case Spec => "Spec"
    case Code => "Code"
    case TestGenerator => "TestGenerator"
    case Reviewer => "Reviewer"
    case Debug => "Debug"
  }

  datatype Request = Request(
    prompt: string,
    context: Option<map<string, string>>,
    agentSequence: Option<seq<AgentType>>,
    options: Option<map<string, string>>)

  /** One step record (`AgentExecution`); its elapsed time is not modelled. */
  datatype Execution = Execution(
    agentType: AgentType,
    input: Value,
    output: Value,
    success: bool,
    errorMessage: Option<string>)

  /** `OrchestrationMetadata` without the total elapsed time. */
  datatype Metadata = Metadata(agentsExecuted: nat, successRate: real, warnings: seq<string>)

  datatype Response = Response(executionOrder: seq<Execution>, finalResult: Option<Value>, metadata: Metadata)

  /** The agent registry: step position, agent type and input to the agent's
      output or error message. */
  type Invoke = (nat, AgentType, Value) -> Result<Value>

  const DefaultSequence: seq<AgentType> := [Spec, Code, Reviewer, TestGenerator]

  function ResolvedSequence(request: Request): seq<AgentType> {
    request.agentSequence.GetOr(DefaultSequence)
  }

  /** `request.options.as_ref().and_then(|o| o.get(key))` as a JSON value. */
  function OptionValue(request: Request, key: string): Value {
    if request.options.Some? && key in request.options.value
    then Str(request.options.value[key])
    else Null
  }

  /** The fields of each input shape. */
  function InputKeys(t: AgentType, withPrevious: bool): set<string> {
    match t
    case Spec => {"prompt", "context", "project_type", "existing_requirements"}
    case Code =>
      if withPrevious then {"prompt", "context", "requirements", "existing_files", "target_files"}
      else {"prompt", "context"}
    case TestGenerator =>
      if withPrevious then {"code_changes", "requirements", "test_framework", "coverage_goals"}
      else {"prompt"}
    case Reviewer =>
      if withPrevious then {"code_changes", "requirements", "review_focus"}
      else {"prompt"}
    case Debug => {"logs", "error_context", "codebase_files", "debug_focus"}
  }

  /** `prepare_agent_input`: total, and always an object with the shape that
      `InputKeys` lists for the agent type and the presence of a prior output. */
  function PrepareAgentInput(t: AgentType, request: Request, previous: Option<Value>): (input: Value)
    ensures input.Obj? && input.fields.Keys == InputKeys(t, previous.Some?)
  {
    match t
    case Spec =>
      Obj(map[
        "prompt" := Str(request.prompt),
        "context" := FromStringMap(request.context),
        "project_type" := OptionValue(request, "project_type"),
        "existing_requirements" := OptionValue(request, "existing_requirements")])
    case Code =>
      if previous.Some? then
        Obj(map[
          "prompt" := Str(request.prompt),
          "context" := FromStringMap(request.context),
          "requirements" := Get(previous.value, "requirements"),
          "existing_files" := OptionValue(request, "existing_files"),
          "target_files" := OptionValue(request, "target_files")])
      else
        Obj(map["prompt" := Str(request.prompt), "context" := FromStringMap(request.context)])
    case TestGenerator =>
      if previous.Some? then
        Obj(map[
          "code_changes" := Get(previous.value, "changes"),
          "requirements" := Get(previous.value, "requirements"),
          "test_framework" := OptionValue(request, "test_framework"),
          "coverage_goals" := OptionValue(request, "coverage_goals")])
      else
        Obj(map["prompt" := Str(request.prompt)])
    case Reviewer =>
      if previous.Some? then
        Obj(map[
          "code_changes" := Get(previous.value, "changes"),
          "requirements" := Get(previous.value, "requirements"),
          "review_focus" := OptionValue(request, "review_focus")])
      else
        Obj(map["prompt" := Str(request.prompt)])
    case Debug =>
      Obj(map[
        "logs" := OptionValue(request, "logs"),
        "error_context" := FromStringMap(request.context),
        "codebase_files" := OptionValue(request, "codebase_files"),
        "debug_focus" := OptionValue(request, "debug_focus")])
  }

  /** The Spec and Debug inputs never look at the prior output. */
  lemma SpecAndDebugIgnorePrevious(t: AgentType, request: Request, p: Option<Value>, q: Option<Value>)
    requires t == Spec || t == Debug
    ensures PrepareAgentInput(t, request, p) == PrepareAgentInput(t, request, q)
  {
  }

  /** Code, TestGenerator and Reviewer take their "with prior output" shape
      exactly when there is a prior output, and otherwise fall back to
      {prompt, context} or {prompt}. */
  lemma PriorShapeIffPrevious(t: AgentType, request: Request, previous: Option<Value>)
    requires t == Code || t == TestGenerator || t == Reviewer
    ensures "requirements" in PrepareAgentInput(t, request, previous).fields <==> previous.Some?
    ensures previous.None? ==>
      PrepareAgentInput(t, request, previous).fields["prompt"] == Str(request.prompt)
    ensures previous.Some? ==>
      PrepareAgentInput(t, request, previous).fields["requirements"] == Get(previous.value, "requirements")
  {
  }

  /** The output recorded for a failed step. */
  function ErrorOutput(t: AgentType, message: string): Value {
    Obj(map["error" := Str(message), "agent" := Str(TypeName(t))])
  }

  /** The warning pushed for a failed step. */
  function FailureWarning(t: AgentType, message: string): string {
    "Agent " + TypeName(t) + " failed: " + message
  }

  /** `execute_agent`: prepare the input, then invoke the registry entry;
      on success yield the input together with the output. */
  function ExecuteAgent(invoke: Invoke, request: Request, index: nat, t: AgentType, previous: Option<Value>)
    : (r: Result<(Value, Value)>)
    ensures r.Ok? ==> r.value.0 == PrepareAgentInput(t, request, previous)
    ensures r.Ok? <==> invoke(index, t, PrepareAgentInput(t, request, previous)).Ok?
  {
    var input := PrepareAgentInput(t, request, previous);
    match invoke(index, t, input)
    case Ok(output) => Ok((input, output))
    case Err(e) => Err(e)
  }

  /** The record that step `index` produces from the prior output it sees. */
  function StepRecord(invoke: Invoke, request: Request, index: nat, t: AgentType, previous: Option<Value>)
    : Execution
  {
    match ExecuteAgent(invoke, request, index, t, previous)
    case Ok(io) => Execution(t, io.0, io.1, true, None)
    case Err(e) => Execution(t, Null, ErrorOutput(t, e), false, Some(e))
  }

  /** The loop variables of `orchestrate`. */
  datatype RunState = RunState(executions: seq<Execution>, warnings: seq<string>, previousOutput: Option<Value>)

  /** One iteration of the loop of `orchestrate`. */
  function Advance(invoke: Invoke, request: Request, st: RunState, t: AgentType): RunState {
    var index := |st.executions|;
    var record := StepRecord(invoke, request, index, t, st.previousOutput);
    match ExecuteAgent(invoke, request, index, t, st.previousOutput)
    case Ok(io) => RunState(st.executions + [record], st.warnings, Some(io.1))
    case Err(e) => RunState(st.executions + [record], st.warnings + [FailureWarning(t, e)], st.previousOutput)
  }

  /** The loop state after running the agents of `ts` in order. */
  function Run(invoke: Invoke, request: Request, ts: seq<AgentType>): RunState
    decreases |ts|
  {
    if ts == [] then RunState([], [], None)
    else Advance(invoke, request, Run(invoke, request, ts[..|ts| - 1]), ts[|ts| - 1])
  }

  function SuccessCount(executions: seq<Execution>): (n: nat)
    ensures n <= |executions|
  {
    if executions == [] then 0
    else SuccessCount(executions[..|executions| - 1]) + (if executions[|executions| - 1].success then 1 else 0)
  }

  /** 100 × successes / records, and 0 for no records. */
  function SuccessRate(executions: seq<Execution>): real {
    if |executions| == 0 then 0.0
    else (SuccessCount(executions) as real / |executions| as real) * 100.0
  }

  /** The output of the last successful record, if any. */
  function LastSuccessfulOutput(executions: seq<Execution>): Option<Value> {
    if executions == [] then None
    else if executions[|executions| - 1].success then Some(executions[|executions| - 1].output)
    else LastSuccessfulOutput(executions[..|executions| - 1])
  }

  /** The warnings of the failed records, in record order. */
  function FailureWarnings(executions: seq<Execution>): seq<string> {
    if executions == [] then []
    else
      var last := executions[|executions| - 1];
      FailureWarnings(executions[..|executions| - 1]) +
        (if last.success then [] else [FailureWarning(last.agentType, last.errorMessage.GetOr(""))])
  }

  /** What `orchestrate` returns: always `Ok`. */
  function Orchestration(invoke: Invoke, request: Request): Result<Response> {
    var ts := ResolvedSequence(request);
    var st := Run(invoke, request, ts);
    Ok(Response(st.executions, st.previousOutput, Metadata(|ts|, SuccessRate(st.executions), st.warnings)))
  }

  /** `AgentSuite::orchestrate`. */
  method Orchestrate(invoke: Invoke, request: Request) returns (r: Result<Response>)
    ensures r == Orchestration(invoke, request)
    ensures r.Ok?
  {
    var agentSequence := ResolvedSequence(request);
    var executions: seq<Execution> := [];
    var warnings: seq<string> := [];
    var previousOutput: Option<Value> := None;
    var i := 0;
    while i < |agentSequence|
      invariant 0 <= i <= |agentSequence| && |executions| == i
      invariant RunState(executions, warnings, previousOutput) == Run(invoke, request, agentSequence[..i])
    {
      var t := agentSequence[i];
      var record: Execution;
      match ExecuteAgent(invoke, request, i, t, previousOutput) {
        case Ok(io) =>
          previousOutput := Some(io.1);
          record := Execution(t, io.0, io.1, true, None);
        case Err(e) =>
          warnings := warnings + [FailureWarning(t, e)];
          record := Execution(t, Null, ErrorOutput(t, e), false, Some(e));
      }
      executions := executions + [record];
      assert agentSequence[..i + 1][..i] == agentSequence[..i];
      i := i + 1;
    }
    assert agentSequence[..i] == agentSequence;
    var successRate := SuccessRate(executions);
    r := Ok(Response(executions, previousOutput, Metadata(|agentSequence|, successRate, warnings)));
  }

  /** One record per resolved agent, in order, each carrying its agent type. */
  /** One step appends exactly its own record, and moves the prior output
      only on success. */
  lemma AdvanceFacts(invoke: Invoke, request: Request, st: RunState, t: AgentType)
    ensures var record := StepRecord(invoke, request, |st.executions|, t, st.previousOutput);
      var next := Advance(invoke, request, st, t);
      && next.executions == st.executions + [record]
      && record.agentType == t
      && next.previousOutput == (if record.success then Some(record.output) else st.previousOutput)
      && next.warnings == st.warnings +
           (if record.success then [] else [FailureWarning(t, record.errorMessage.GetOr(""))])
  {
  }

  /** One step, by the outcome of its invocation. */
  lemma AdvanceOutcome(invoke: Invoke, request: Request, st: RunState, t: AgentType)
    ensures var input := PrepareAgentInput(t, request, st.previousOutput);
      var next := Advance(invoke, request, st, t);
      match invoke(|st.executions|, t, input)
      case Ok(o) =>
        next == RunState(st.executions + [Execution(t, input, o, true, None)], st.warnings, Some(o))
      case Err(e) =>
        next == RunState(st.executions + [Execution(t, Null, ErrorOutput(t, e), false, Some(e))],
                         st.warnings + [FailureWarning(t, e)], st.previousOutput)
  {
  }

  lemma {:induction false} RunShape(invoke: Invoke, request: Request, ts: seq<AgentType>)
    ensures |Run(invoke, request, ts).executions| == |ts|
    ensures forall i :: 0 <= i < |ts| ==> Run(invoke, request, ts).executions[i].agentType == ts[i]
    decreases |ts|
  {
    if ts != [] {
      var prefix := ts[..|ts| - 1];
      RunShape(invoke, request, prefix);
      AdvanceFacts(invoke, request, Run(invoke, request, prefix), ts[|ts| - 1]);
      forall i | 0 <= i < |ts| - 1 ensures Run(invoke, request, ts).executions[i].agentType == ts[i] {
        assert prefix[i] == ts[i];
      }
    }
  }

  /** Running a prefix of the sequence yields a prefix of the records: a
      step never changes the records before it. */
  lemma {:induction false} RunPrefix(invoke: Invoke, request: Request, ts: seq<AgentType>, k: nat)
    requires k <= |ts|
    ensures |Run(invoke, request, ts).executions| == |ts|
    ensures Run(invoke, request, ts[..k]).executions == Run(invoke, request, ts).executions[..k]
    decreases |ts|
  {
    RunShape(invoke, request, ts);
    if k < |ts| {
      RunPrefix(invoke, request, ts[..|ts| - 1], k);
      assert ts[..|ts| - 1][..k] == ts[..k];
      RunShape(invoke, request, ts[..|ts| - 1]);
    } else {
      assert ts[..k] == ts;
    }
  }

  /** The prior output threaded through the loop is the output of the last
      successful record: it changes only on a successful step. */
  lemma {:induction false} PreviousIsLastSuccess(invoke: Invoke, request: Request, ts: seq<AgentType>)
    ensures Run(invoke, request, ts).previousOutput == LastSuccessfulOutput(Run(invoke, request, ts).executions)
    decreases |ts|
  {
    if ts != [] {
      var prefix := Run(invoke, request, ts[..|ts| - 1]);
      PreviousIsLastSuccess(invoke, request, ts[..|ts| - 1]);
      var execs := Run(invoke, request, ts).executions;
      assert execs[..|execs| - 1] == prefix.executions;
    }
  }

  /** The warnings are exactly those of the failed records, one each, so
      their number is the number of failed records. */
  lemma {:induction false} WarningsOfFailures(invoke: Invoke, request: Request, ts: seq<AgentType>)
    ensures Run(invoke, request, ts).warnings == FailureWarnings(Run(invoke, request, ts).executions)
    ensures |Run(invoke, request, ts).warnings| == |ts| - SuccessCount(Run(invoke, request, ts).executions)
    decreases |ts|
  {
    RunShape(invoke, request, ts);
    if ts != [] {
      var prefix := Run(invoke, request, ts[..|ts| - 1]);
      WarningsOfFailures(invoke, request, ts[..|ts| - 1]);
      RunShape(invoke, request, ts[..|ts| - 1]);
      var execs := Run(invoke, request, ts).executions;
      assert execs[..|execs| - 1] == prefix.executions;
    }
  }

  /** Step `i` sees the output of the last successful step before it, and
      its record is a success carrying the prepared input and the agent's
      output, or a failure with a null input, the error object and the
      error message. */
  lemma StepSeesLastSuccess(invoke: Invoke, request: Request, ts: seq<AgentType>, i: nat)
    requires i < |ts|
    ensures |Run(invoke, request, ts).executions| == |ts|
    ensures var execs := Run(invoke, request, ts).executions;
      var input := PrepareAgentInput(ts[i], request, LastSuccessfulOutput(execs[..i]));
      match invoke(i, ts[i], input)
      case Ok(output) => execs[i] == Execution(ts[i], input, output, true, None)
      case Err(e) => execs[i] == Execution(ts[i], Null, ErrorOutput(ts[i], e), false, Some(e))
  {
    RunPrefix(invoke, request, ts, i + 1);
    RunShape(invoke, request, ts[..i]);
    var before := Run(invoke, request, ts[..i]);
    assert ts[..i + 1][..i] == ts[..i];
    PreviousIsLastSuccess(invoke, request, ts[..i]);
    RunPrefix(invoke, request, ts, i);
  }

  lemma SuccessCountAppend(executions: seq<Execution>, e: Execution)
    ensures SuccessCount(executions + [e]) == SuccessCount(executions) + (if e.success then 1 else 0)
  {
    assert (executions + [e])[..|executions|] == executions;
  }

  lemma {:induction false} SuccessCountAllOrNone(executions: seq<Execution>)
    ensures SuccessCount(executions) == |executions| <==> forall i :: 0 <= i < |executions| ==> executions[i].success
    ensures SuccessCount(executions) == 0 <==> forall i :: 0 <= i < |executions| ==> !executions[i].success
    decreases |executions|
  {
    if executions != [] {
      var prefix := executions[..|executions| - 1];
      SuccessCountAllOrNone(prefix);
      assert forall i :: 0 <= i < |prefix| ==> prefix[i] == executions[i];
    }
  }

  /** The success rate lies in [0, 100]; it is 100 exactly when there are
      records and all succeeded, and 0 exactly when none succeeded. */
  lemma SuccessRateBounds(executions: seq<Execution>)
    ensures 0.0 <= SuccessRate(executions) <= 100.0
    ensures SuccessRate(executions) == 100.0 <==>
      |executions| > 0 && forall i :: 0 <= i < |executions| ==> executions[i].success
    ensures SuccessRate(executions) == 0.0 <==> forall i :: 0 <= i < |executions| ==> !executions[i].success
  {
    SuccessCountAllOrNone(executions);
    if |executions| > 0 {
      RatioBounds(SuccessCount(executions) as real, |executions| as real);
    }
  }

  /** A fraction s / n with 0 <= s <= n lies in [0, 1], and hits its ends
      only at s = n and s = 0. */
  lemma RatioBounds(s: real, n: real)
    requires 0.0 <= s <= n && n > 0.0
    ensures 0.0 <= s / n <= 1.0
    ensures s / n == 1.0 <==> s == n
    ensures s / n == 0.0 <==> s == 0.0
  {
    var f := s / n;
    assert f * n == s;
  }

  /** The response of `orchestrate` in terms of the records: one per resolved
      agent in order, the final result is the last successful output, the
      agents executed are the resolved ones, and there is one warning per
      failed record. */
  lemma OrchestrationFacts(invoke: Invoke, request: Request)
    ensures var ts := ResolvedSequence(request);
      var resp := Orchestration(invoke, request).value;
      && |resp.executionOrder| == |ts| == resp.metadata.agentsExecuted
      && (forall i :: 0 <= i < |ts| ==> resp.executionOrder[i].agentType == ts[i])
      && resp.finalResult == LastSuccessfulOutput(resp.executionOrder)
      && resp.metadata.warnings == FailureWarnings(resp.executionOrder)
      && 0.0 <= resp.metadata.successRate <= 100.0
  {
    var ts := ResolvedSequence(request);
    RunShape(invoke, request, ts);
    PreviousIsLastSuccess(invoke, request, ts);
    WarningsOfFailures(invoke, request, ts);
    SuccessRateBounds(Run(invoke, request, ts).executions);
  }

  /** Without an explicit sequence the four default stages run, in the
      order Spec, Code, Reviewer, TestGenerator. */
  lemma DefaultOrder(invoke: Invoke, request: Request)
    requires request.agentSequence.None?
    ensures var resp := Orchestration(invoke, request).value;
      |resp.executionOrder| == 4 &&
      resp.executionOrder[0].agentType == Spec && resp.executionOrder[1].agentType == Code &&
      resp.executionOrder[2].agentType == Reviewer && resp.executionOrder[3].agentType == TestGenerator
  {
    RunShape(invoke, request, DefaultSequence);
  }

  /** When every agent fails, every record is a failure, there is no final
      result, the rate is 0 and there is one warning per agent. */
  lemma {:induction false} AllStepsFail(invoke: Invoke, request: Request, ts: seq<AgentType>)
    requires forall i, t, v :: invoke(i, t, v).Err?
    ensures var st := Run(invoke, request, ts);
      && (forall i :: 0 <= i < |st.executions| ==> !st.executions[i].success)
      && st.previousOutput.None?
      && SuccessRate(st.executions) == 0.0
      && |st.warnings| == |ts|
    decreases |ts|
  {
    RunShape(invoke, request, ts);
    if ts != [] {
      var prefix := ts[..|ts| - 1];
      AllStepsFail(invoke, request, prefix);
      RunShape(invoke, request, prefix);
      var before := Run(invoke, request, prefix);
      AdvanceFacts(invoke, request, before, ts[|ts| - 1]);
      var record := StepRecord(invoke, request, |before.executions|, ts[|ts| - 1], before.previousOutput);
      assert !record.success;
    }
    SuccessRateBounds(Run(invoke, request, ts).executions);
  }

  /** The loop state after [Spec, Code, Reviewer] when only Code fails. */
  lemma MiddleFailureRun(invoke: Invoke, request: Request, specOut: Value, reviewOut: Value)
    requires invoke(0, Spec, PrepareAgentInput(Spec, request, None)) == Ok(specOut)
    requires invoke(1, Code, PrepareAgentInput(Code, request, Some(specOut))).Err?
    requires invoke(2, Reviewer, PrepareAgentInput(Reviewer, request, Some(specOut))) == Ok(reviewOut)
    ensures var e := invoke(1, Code, PrepareAgentInput(Code, request, Some(specOut))).error;
      Run(invoke, request, [Spec, Code, Reviewer]) == RunState(
        [Execution(Spec, PrepareAgentInput(Spec, request, None), specOut, true, None),
         Execution(Code, Null, ErrorOutput(Code, e), false, Some(e)),
         Execution(Reviewer, PrepareAgentInput(Reviewer, request, Some(specOut)), reviewOut, true, None)],
        [FailureWarning(Code, e)],
        Some(reviewOut))
  {
    var ts := [Spec, Code, Reviewer];
    var e := invoke(1, Code, PrepareAgentInput(Code, request, Some(specOut))).error;
    var r0 := Execution(Spec, PrepareAgentInput(Spec, request, None), specOut, true, None);
    var r1 := Execution(Code, Null, ErrorOutput(Code, e), false, Some(e));
    var st1 := RunState([r0], [], Some(specOut));
    var st2 := RunState([r0, r1], [FailureWarning(Code, e)], Some(specOut));
    assert Run(invoke, request, [Spec]) == st1 by {
      assert [Spec][..0] == [];
      AdvanceOutcome(invoke, request, RunState([], [], None), Spec);
    }
    assert Run(invoke, request, [Spec, Code]) == st2 by {
      assert [Spec, Code][..1] == [Spec];
      AdvanceOutcome(invoke, request, st1, Code);
    }
    assert ts[..2] == [Spec, Code];
    AdvanceOutcome(invoke, request, st2, Reviewer);
  }

  /** A failed middle step: with [Spec, Code, Reviewer] where only Code
      fails, the Reviewer is fed from the Spec output, the result is the
      Reviewer's output, two of three steps succeeded, and there is one
      warning. */
  lemma MiddleFailureReusesEarlierOutput(invoke: Invoke, request: Request, specOut: Value, reviewOut: Value)
    requires request.agentSequence == Some([Spec, Code, Reviewer])
    requires invoke(0, Spec, PrepareAgentInput(Spec, request, None)) == Ok(specOut)
    requires invoke(1, Code, PrepareAgentInput(Code, request, Some(specOut))).Err?
    requires invoke(2, Reviewer, PrepareAgentInput(Reviewer, request, Some(specOut))) == Ok(reviewOut)
    ensures var resp := Orchestration(invoke, request).value;
      && |resp.executionOrder| == 3
      && resp.executionOrder[2].input == PrepareAgentInput(Reviewer, request, Some(specOut))
      && resp.finalResult == Some(reviewOut)
      && resp.metadata.successRate == 200.0 / 3.0
      && |resp.metadata.warnings| == 1
  {
    MiddleFailureRun(invoke, request, specOut, reviewOut);
    var execs := Run(invoke, request, [Spec, Code, Reviewer]).executions;
    SuccessCountAppend([], execs[0]);
    SuccessCountAppend(execs[..1], execs[1]);
    SuccessCountAppend(execs[..2], execs[2]);
    assert [execs[0]] == [] + [execs[0]] && execs[..2] == execs[..1] + [execs[1]] && execs == execs[..2] + [execs[2]];
    assert SuccessCount(execs) == 2;
    assert SuccessRate(execs) == (2.0 / 3.0) * 100.0 == 200.0 / 3.0;
    assert ResolvedSequence(request) == [Spec, Code, Reviewer];
    var st := Run(invoke, request, [Spec, Code, Reviewer]);
    assert Orchestration(invoke, request).value ==
      Response(execs, st.previousOutput, Metadata(3, SuccessRate(execs), st.warnings));
  }
}
