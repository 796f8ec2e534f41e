/** The service boundary (`AgentOrchestrator` in
    codex/backend/orchestrator/src/lib.rs): it resolves agent names, flattens
    the JSON context and options into string maps, runs the pipeline, maps its
    outcome to a `Completed` or `Failed` status and keeps two counters.

    Clock readings, the request UUID and serde_json's `Value::to_string` are
    not computed here: the request id is a parameter and the JSON rendering of
    a value is the parameter `render`. */
module Orchestrator {
  import opened Wrappers
  import opened Json
  import Text
  import Pipeline

  datatype ServiceRequest = ServiceRequest(
    prompt: string,
    context: Option<Value>,
    agentSequence: Option<seq<string>>,
    options: Option<Value>)

  datatype Status = Pending | InProgress | Completed | Failed(message: string)

  /** The response metadata without its timestamps and duration. */
  datatype ServiceMetadata = ServiceMetadata(agentSequence: seq<string>, success: bool, error: Option<string>)

  datatype ServiceResponse = ServiceResponse(
    requestId: string,
    status: Status,
    result: Option<Value>,
    metadata: ServiceMetadata)

  /** The names used when the request gives none. */
  const DefaultNames: seq<string> := ["spec", "code", "reviewer"]

  /** One arm of the `filter_map`: the lower-cased name selects an agent type,
      and any other name is dropped. */
  function ParseAgentName(name: string): Option<Pipeline.AgentType> {
    var lower := Text.ToLower(name);
    if lower == "spec" then Some(Pipeline.Spec)
    else if lower == "code" then Some(Pipeline.Code)
    else if lower == "test" || lower == "test_generator" then Some(Pipeline.TestGenerator)
    else if lower == "review" || lower == "reviewer" then Some(Pipeline.Reviewer)
    else if lower == "debug" then Some(Pipeline.Debug)
    else None
  }

  /** The accepted spellings of each agent type, in lower case. */
  function Spellings(t: Pipeline.AgentType): set<string> {
    match t
    case Spec => {"spec"}
    case Code => {"code"}
    case TestGenerator => {"test", "test_generator"}
    case Reviewer => {"review", "reviewer"}
    case Debug => {"debug"}
  }

  /** A name resolves to `t` exactly when its lower-cased form is one of
      `t`'s spellings, so resolution ignores case. */
  lemma ParseAgentNameSpellings(name: string, t: Pipeline.AgentType)
    ensures ParseAgentName(name) == Some(t) <==> Text.ToLower(name) in Spellings(t)
    ensures ParseAgentName(Text.ToLower(name)) == ParseAgentName(name)
  {
    Text.ToLowerIdempotent(name);
  }

  /** The names the service reports (`{:?}` of the type) resolve back to the
      same type, except "TestGenerator", whose lower-case form
      "testgenerator" is not an accepted spelling. */
  lemma ReportedNamesResolve(t: Pipeline.AgentType)
    ensures t != Pipeline.TestGenerator ==> ParseAgentName(Pipeline.TypeName(t)) == Some(t)
    ensures t == Pipeline.TestGenerator ==> ParseAgentName(Pipeline.TypeName(t)) == None
  {
    var lower := Text.ToLower(Pipeline.TypeName(t));
    match t {
      case Spec => assert lower == "spec";
      case Code => assert lower == "code";
      case TestGenerator =>
        assert lower == "testgenerator";
        assert lower != "test_generator" by { assert lower[4] != "test_generator"[4]; }
      case Reviewer => assert lower == "reviewer";
      case Debug => assert lower == "debug";
    }
  }

  /** The parse of every name, in name order. */
  function Parsed(names: seq<string>): (r: seq<Option<Pipeline.AgentType>>)
    ensures |r| == |names|
  {
    seq(|names|, i requires 0 <= i < |names| => ParseAgentName(names[i]))
  }

  /** The present values, in order. */
  function Recognised(parsed: seq<Option<Pipeline.AgentType>>): (r: seq<Pipeline.AgentType>)
    ensures |r| <= |parsed|
  {
    if parsed == [] then []
    else
      Recognised(parsed[..|parsed| - 1]) +
        (match parsed[|parsed| - 1] case Some(t) => [t] case None => [])
  }

  /** The `filter_map` over the names. */
  function ResolveAgentNames(names: seq<string>): (r: seq<Pipeline.AgentType>)
    ensures |r| <= |names|
  {
    Recognised(Parsed(names))
  }

  lemma {:induction false} RecognisedConcat(a: seq<Option<Pipeline.AgentType>>, b: seq<Option<Pipeline.AgentType>>)
    ensures Recognised(a + b) == Recognised(a) + Recognised(b)
    decreases |b|
  {
    if b == [] {
      assert a + b == a;
    } else {
      var b' := b[..|b| - 1];
      RecognisedConcat(a, b');
      assert (a + b)[..|a + b| - 1] == a + b';
    }
  }

  /** Resolution works name by name: resolving a concatenation concatenates
      the resolutions, so recognised names keep their relative order. */
  lemma ResolveConcat(a: seq<string>, b: seq<string>)
    ensures ResolveAgentNames(a + b) == ResolveAgentNames(a) + ResolveAgentNames(b)
  {
    assert Parsed(a + b) == Parsed(a) + Parsed(b);
    RecognisedConcat(Parsed(a), Parsed(b));
  }

  lemma {:induction false} RecognisedMember(parsed: seq<Option<Pipeline.AgentType>>, t: Pipeline.AgentType)
    ensures t in Recognised(parsed) <==> exists i :: 0 <= i < |parsed| && parsed[i] == Some(t)
    decreases |parsed|
  {
    if parsed != [] {
      var n := |parsed| - 1;
      var prefix := parsed[..n];
      RecognisedMember(prefix, t);
      var last: seq<Pipeline.AgentType> := match parsed[n] case Some(u) => [u] case None => [];
      assert Recognised(parsed) == Recognised(prefix) + last;
      assert t in last <==> parsed[n] == Some(t);
      if exists i :: 0 <= i < |parsed| && parsed[i] == Some(t) {
        var i :| 0 <= i < |parsed| && parsed[i] == Some(t);
        if i < n {
          assert prefix[i] == parsed[i];
        }
      }
      if t in Recognised(prefix) {
        var i :| 0 <= i < |prefix| && prefix[i] == Some(t);
        assert parsed[i] == prefix[i];
      }
    }
  }

  /** Every resolved type comes from some name, and a name that does not
      parse contributes nothing. */
  lemma ResolveMembers(names: seq<string>)
    ensures forall t :: t in ResolveAgentNames(names) <==> exists i :: 0 <= i < |names| && ParseAgentName(names[i]) == Some(t)
  {
    forall t ensures t in ResolveAgentNames(names) <==> exists i :: 0 <= i < |names| && ParseAgentName(names[i]) == Some(t) {
      RecognisedMember(Parsed(names), t);
      assert forall i :: 0 <= i < |names| ==> Parsed(names)[i] == ParseAgentName(names[i]);
    }
  }

  /** The default names resolve to Spec, Code, Reviewer. */
  lemma DefaultNamesResolve()
    ensures ResolveAgentNames(DefaultNames) == [Pipeline.Spec, Pipeline.Code, Pipeline.Reviewer]
  {
    var d := DefaultNames;
    assert Text.ToLower("spec") == "spec";
    assert Text.ToLower("code") == "code";
    assert Text.ToLower("reviewer") == "reviewer";
    var p := Parsed(d);
    assert p == [Some(Pipeline.Spec), Some(Pipeline.Code), Some(Pipeline.Reviewer)];
    assert p[..2] == [Some(Pipeline.Spec), Some(Pipeline.Code)] && p[..2][..1] == [Some(Pipeline.Spec)];
    assert p[..2][..1][..0] == [];
    assert Recognised(p[..2][..1]) == [Pipeline.Spec];
    assert Recognised(p[..2]) == [Pipeline.Spec, Pipeline.Code];
    assert Recognised(p) == [Pipeline.Spec, Pipeline.Code, Pipeline.Reviewer];
  }

  /** The context/options conversion: an absent value stays absent, an object
      keeps every key with its value rendered as JSON text, and any other
      value becomes the empty map. */
  function Flatten(v: Option<Value>, render: Value -> string): (r: Option<map<string, string>>)
    ensures r.Some? <==> v.Some?
    ensures v.Some? && v.value.Obj? ==>
      r.value.Keys == v.value.fields.Keys &&
      forall k :: k in r.value ==> r.value[k] == render(v.value.fields[k])
    ensures v.Some? && !v.value.Obj? ==> r.value == map[]
  {
    match v
    case None => None
    case Some(Obj(fields)) => Some(map k | k in fields :: render(fields[k]))
    case Some(_) => Some(map[])
  }

  /** The request handed to the pipeline; its sequence is always given. */
  function AgentRequest(request: ServiceRequest, resolved: seq<Pipeline.AgentType>, render: Value -> string)
    : Pipeline.Request
  {
    Pipeline.Request(request.prompt, Flatten(request.context, render), Some(resolved), Flatten(request.options, render))
  }

  /** The reported names of the resolved types, in resolved order. */
  function ReportedNames(resolved: seq<Pipeline.AgentType>): (r: seq<string>)
    ensures |r| == |resolved|
  {
    seq(|resolved|, i requires 0 <= i < |resolved| => Pipeline.TypeName(resolved[i]))
  }

  /** The status mapping of the two `match` arms. */
  function StatusResponse(requestId: string, names: seq<string>, outcome: Result<Pipeline.Response>)
    : (r: ServiceResponse)
    ensures r.requestId == requestId && r.metadata.agentSequence == names
    ensures r.status == Completed <==> outcome.Ok?
    ensures r.metadata.success <==> outcome.Ok?
    ensures r.result.Some? <==> outcome.Ok?
    ensures outcome.Ok? ==> r.metadata.error.None? && r.result == Some(outcome.value.finalResult.GetOr(Null))
    ensures outcome.Err? ==> r.status == Failed(outcome.error) && r.metadata.error == Some(outcome.error)
  {
    match outcome
    case Ok(response) =>
      ServiceResponse(requestId, Completed, Some(response.finalResult.GetOr(Null)), ServiceMetadata(names, true, None))
    case Err(e) =>
      ServiceResponse(requestId, Failed(e), None, ServiceMetadata(names, false, Some(e)))
  }

  /** The response `process_request` builds. */
  function Respond(requestId: string, request: ServiceRequest, invoke: Pipeline.Invoke, render: Value -> string)
    : ServiceResponse
  {
    var resolved := ResolveAgentNames(request.agentSequence.GetOr(DefaultNames));
    StatusResponse(requestId, ReportedNames(resolved), Pipeline.Orchestration(invoke, AgentRequest(request, resolved, render)))
  }

  /** Since the pipeline never fails, every request completes; its result is
      present even when no agent succeeded, and the pipeline runs exactly the
      resolved names, so its own four-stage default is never used here. */
  lemma RespondCompletes(requestId: string, request: ServiceRequest, invoke: Pipeline.Invoke, render: Value -> string)
    ensures var resolved := ResolveAgentNames(request.agentSequence.GetOr(DefaultNames));
      var r := Respond(requestId, request, invoke, render);
      && r.status == Completed && r.metadata.success && r.metadata.error.None? && r.result.Some?
      && Pipeline.ResolvedSequence(AgentRequest(request, resolved, render)) == resolved
      && r.metadata.agentSequence == ReportedNames(resolved)
  {
  }

  /** Without names the service runs Spec, Code, Reviewer and reports them. */
  lemma RespondDefaultNames(requestId: string, request: ServiceRequest, invoke: Pipeline.Invoke, render: Value -> string)
    requires request.agentSequence.None?
    ensures Respond(requestId, request, invoke, render).metadata.agentSequence == ["Spec", "Code", "Reviewer"]
  {
    DefaultNamesResolve();
  }

  /** `AgentOrchestrator` with its two observability counters. */
  class AgentOrchestrator {
    var activeSessions: nat
    var totalRequests: nat

    constructor ()
      ensures activeSessions == 0 && totalRequests == 0
    {
      activeSessions := 0;
      totalRequests := 0;
    }

    /** `process_request`: one more request counted, the session count back
        where it was, and the response of `Respond`. */
    method ProcessRequest(request: ServiceRequest, invoke: Pipeline.Invoke, render: Value -> string, requestId: string)
      returns (response: ServiceResponse)
      modifies this
      ensures totalRequests == old(totalRequests) + 1
      ensures activeSessions == old(activeSessions)
      ensures response == Respond(requestId, request, invoke, render)
    {
      activeSessions := activeSessions + 1;
      totalRequests := totalRequests + 1;

      var resolved := ResolveAgentNames(request.agentSequence.GetOr(DefaultNames));
      var agentRequest := AgentRequest(request, resolved, render);
      var outcome := Pipeline.Orchestrate(invoke, agentRequest);
      response := StatusResponse(requestId, ReportedNames(resolved), outcome);

      activeSessions := activeSessions - 1;
    }
  }
}
