/** The code agent (codex/agents/code/src/lib.rs): it asks the language model
    for a context analysis and for code changes, validates the changes and
    describes them with metadata.

    The two language-model steps are the oracles `analyze` and `generate`. */
module CodeAgent {
  import opened Wrappers
  import Text

  datatype ExistingFile = ExistingFile(path: string, content: string, language: string)

  datatype CodeRequest = CodeRequest(
    prompt: string,
    context: Option<map<string, string>>,
    requirements: Option<seq<string>>,
    existingFiles: Option<seq<ExistingFile>>,
    targetFiles: Option<seq<string>>)

  datatype ChangeType = Create | Modify | Delete | Rename

  /** A proposed change; the confidence is a number in the model's own
      scale, compared against 0.7. */
  datatype CodeChange = CodeChange(
    filePath: string,
    oldContent: string,
    newContent: string,
    changeType: ChangeType,
    explanation: string,
    confidence: real)

  datatype ContextAnalysis = ContextAnalysis(
    patterns: seq<string>,
    conventions: seq<string>,
    dependencies: seq<string>,
    styleGuide: string)

  /** A validation warning: the TODO warning, or the low-confidence warning
      with the confidence it reports. */
  datatype Warning = TodoFound(filePath: string) | LowConfidence(confidence: real, filePath: string)

  datatype ValidationResult = ValidationResult(isValid: bool, dependencies: seq<string>, warnings: seq<Warning>)

  datatype CodeMetadata = CodeMetadata(
    language: string,
    framework: Option<string>,
    patternsUsed: seq<string>,
    complexityScore: real)

  datatype CodeStream = CodeStream(
    changes: seq<CodeChange>,
    metadata: CodeMetadata,
    dependencies: seq<string>,
    warnings: seq<Warning>)

  const LowConfidenceThreshold: real := 0.7

  // ---------------------------------------------------------------------
  // Validation

  predicate ImportsSomething(c: CodeChange) {
    Text.Contains(c.newContent, "import") || Text.Contains(c.newContent, "require")
  }

  /** The warnings one change raises, in the order they are checked. */
  function ChangeWarnings(c: CodeChange): seq<Warning> {
    (if Text.Contains(c.newContent, "TODO") then [TodoFound(c.filePath)] else []) +
    (if c.confidence < LowConfidenceThreshold then [LowConfidence(c.confidence, c.filePath)] else [])
  }

  /** The dependencies collected over the changes: one "bcrypt" per change
      that imports or requires anything. */
  function DependenciesOf(changes: seq<CodeChange>): seq<string> {
    if changes == [] then []
    else DependenciesOf(changes[..|changes| - 1]) + (if ImportsSomething(changes[|changes| - 1]) then ["bcrypt"] else [])
  }

  /** The warnings collected over the changes, change by change. */
  function WarningsOf(changes: seq<CodeChange>): seq<Warning> {
    if changes == [] then [] else WarningsOf(changes[..|changes| - 1]) + ChangeWarnings(changes[|changes| - 1])
  }

  /** `validate_changes`. */
  method ValidateChanges(changes: seq<CodeChange>) returns (r: ValidationResult)
    ensures r.dependencies == DependenciesOf(changes)
    ensures r.warnings == WarningsOf(changes)
    ensures r.isValid <==> r.warnings == []
  {
    var dependencies: seq<string> := [];
    var warnings: seq<Warning> := [];
    for i := 0 to |changes|
      invariant dependencies == DependenciesOf(changes[..i])
      invariant warnings == WarningsOf(changes[..i])
    {
      assert changes[..i + 1][..i] == changes[..i];
      var change := changes[i];
      if Text.Contains(change.newContent, "import") || Text.Contains(change.newContent, "require") {
        dependencies := dependencies + ["bcrypt"];
      }
      if Text.Contains(change.newContent, "TODO") {
        warnings := warnings + [TodoFound(change.filePath)];
      }
      if change.confidence < LowConfidenceThreshold {
        warnings := warnings + [LowConfidence(change.confidence, change.filePath)];
      }
    }
    assert changes[..|changes|] == changes;
    r := ValidationResult(warnings == [], dependencies, warnings);
  }

  /** Every change raises at most two warnings, and every warning names the
      file of a change. */
  lemma {:induction false} WarningsBound(changes: seq<CodeChange>)
    ensures |WarningsOf(changes)| <= 2 * |changes|
    ensures forall w :: w in WarningsOf(changes) ==> exists i :: 0 <= i < |changes| && w.filePath == changes[i].filePath
    decreases |changes|
  {
    if changes != [] {
      var prefix := changes[..|changes| - 1];
      WarningsBound(prefix);
      forall w | w in WarningsOf(changes)
        ensures exists i :: 0 <= i < |changes| && w.filePath == changes[i].filePath
      {
        if w in WarningsOf(prefix) {
          var i :| 0 <= i < |prefix| && w.filePath == prefix[i].filePath;
          assert changes[i] == prefix[i];
        } else {
          assert w.filePath == changes[|changes| - 1].filePath;
        }
      }
    }
  }

  /** The changes are valid exactly when none contains "TODO" and none has a
      confidence below 0.7. */
  lemma {:induction false} ValidIffClean(changes: seq<CodeChange>)
    ensures WarningsOf(changes) == [] <==>
      forall i :: 0 <= i < |changes| ==>
        !Text.Contains(changes[i].newContent, "TODO") && changes[i].confidence >= LowConfidenceThreshold
    decreases |changes|
  {
    if changes != [] {
      var prefix := changes[..|changes| - 1];
      ValidIffClean(prefix);
      assert forall i :: 0 <= i < |prefix| ==> prefix[i] == changes[i];
    }
  }

  /** The dependency list holds one "bcrypt" per importing change and
      nothing else. */
  lemma {:induction false} DependenciesAreBcrypt(changes: seq<CodeChange>)
    ensures forall d :: d in DependenciesOf(changes) ==> d == "bcrypt"
    ensures |DependenciesOf(changes)| <= |changes|
    ensures DependenciesOf(changes) == [] <==> forall i :: 0 <= i < |changes| ==> !ImportsSomething(changes[i])
    decreases |changes|
  {
    if changes != [] {
      var prefix := changes[..|changes| - 1];
      DependenciesAreBcrypt(prefix);
      assert forall i :: 0 <= i < |prefix| ==> prefix[i] == changes[i];
    }
  }

  // ---------------------------------------------------------------------
  // Language and complexity

  /** `detect_language`: a first-match chain over file suffixes. */
  function DetectLanguage(path: string): (r: string)
    ensures r in {"javascript", "typescript", "python", "rust", "unknown"}
  {
    if Text.EndsWith(path, ".js") || Text.EndsWith(path, ".mjs") then "javascript"
    else if Text.EndsWith(path, ".ts") || Text.EndsWith(path, ".tsx") then "typescript"
    else if Text.EndsWith(path, ".py") then "python"
    else if Text.EndsWith(path, ".rs") then "rust"
    else "unknown"
  }

  /** The suffixes never overlap, so each language is recognised by its own
      suffixes alone, whatever the order of the chain. */
  lemma DetectLanguageBySuffix(path: string)
    ensures DetectLanguage(path) == "javascript" <==> Text.EndsWith(path, ".js") || Text.EndsWith(path, ".mjs")
    ensures DetectLanguage(path) == "typescript" <==> Text.EndsWith(path, ".ts") || Text.EndsWith(path, ".tsx")
    ensures DetectLanguage(path) == "python" <==> Text.EndsWith(path, ".py")
    ensures DetectLanguage(path) == "rust" <==> Text.EndsWith(path, ".rs")
  {
    if Text.EndsWith(path, ".py") {
      Text.EndsWithTail(path, ".py", 1);
      Text.NotEndsWith(path, ".js", 1);
      Text.NotEndsWith(path, ".mjs", 1);
      Text.NotEndsWith(path, ".ts", 1);
      Text.NotEndsWith(path, ".tsx", 1);
    }
    if Text.EndsWith(path, ".tsx") {
      Text.EndsWithTail(path, ".tsx", 1);
      Text.NotEndsWith(path, ".js", 1);
      Text.NotEndsWith(path, ".mjs", 1);
    }
    if Text.EndsWith(path, ".rs") {
      Text.EndsWithTail(path, ".rs", 2);
      Text.NotEndsWith(path, ".js", 2);
      Text.NotEndsWith(path, ".mjs", 2);
      Text.NotEndsWith(path, ".ts", 2);
      Text.NotEndsWith(path, ".tsx", 1);
    }
    if Text.EndsWith(path, ".ts") {
      Text.EndsWithTail(path, ".ts", 2);
      Text.NotEndsWith(path, ".js", 2);
      Text.NotEndsWith(path, ".mjs", 2);
    }
  }

  /** The total number of lines of the new contents. */
  function TotalLines(changes: seq<CodeChange>): nat {
    if changes == [] then 0 else TotalLines(changes[..|changes| - 1]) + Text.LineCount(changes[|changes| - 1].newContent)
  }

  /** The complexity bucket of a line count. */
  function ComplexityBucket(lines: nat): (r: real)
    ensures 0.3 <= r <= 0.9
  {
    if lines <= 50 then 0.3
    else if lines <= 200 then 0.5
    else if lines <= 500 then 0.7
    else 0.9
  }

  /** More lines never mean a lower complexity. */
  lemma ComplexityMonotone(a: nat, b: nat)
    requires a <= b
    ensures ComplexityBucket(a) <= ComplexityBucket(b)
  {
  }

  /** `calculate_complexity`. */
  function CalculateComplexity(changes: seq<CodeChange>): real {
    ComplexityBucket(TotalLines(changes))
  }

  /** Adding a change never lowers the complexity, and a change set without
      content has the lowest. */
  lemma {:induction false} ComplexityGrows(changes: seq<CodeChange>, more: seq<CodeChange>)
    ensures CalculateComplexity(changes) <= CalculateComplexity(changes + more)
    ensures (forall i :: 0 <= i < |changes| ==> changes[i].newContent == []) ==> CalculateComplexity(changes) == 0.3
    decreases |more|
  {
    TotalLinesGrows(changes, more);
    ComplexityMonotone(TotalLines(changes), TotalLines(changes + more));
    TotalLinesEmpty(changes);
  }

  lemma {:induction false} TotalLinesGrows(changes: seq<CodeChange>, more: seq<CodeChange>)
    ensures TotalLines(changes) <= TotalLines(changes + more)
    decreases |more|
  {
    if more == [] {
      assert changes + more == changes;
    } else {
      var prefix := more[..|more| - 1];
      assert (changes + more)[..|changes + more| - 1] == changes + prefix;
      TotalLinesGrows(changes, prefix);
    }
  }

  lemma {:induction false} TotalLinesEmpty(changes: seq<CodeChange>)
    ensures (forall i :: 0 <= i < |changes| ==> changes[i].newContent == []) ==> TotalLines(changes) == 0
    decreases |changes|
  {
    if changes != [] {
      var prefix := changes[..|changes| - 1];
      TotalLinesEmpty(prefix);
      if forall i :: 0 <= i < |changes| ==> changes[i].newContent == [] {
        assert forall i :: 0 <= i < |prefix| ==> prefix[i] == changes[i];
        Text.LineCountBounds(changes[|changes| - 1].newContent);
      }
    }
  }

  /** `generate_metadata`. The primary language is the first element of a
      hash set of the detected languages, so it is some detected language;
      `pick` stands for the set's iteration order. */
  function GenerateMetadata(changes: seq<CodeChange>, context: ContextAnalysis, pick: nat): (m: CodeMetadata)
    ensures changes == [] ==> m.language == "javascript"
    ensures changes != [] ==> exists i :: 0 <= i < |changes| && m.language == DetectLanguage(changes[i].filePath)
    ensures m.patternsUsed == context.patterns
    ensures m.framework == Some("express")
    ensures m.complexityScore == CalculateComplexity(changes)
  {
    var language := if changes == [] then "javascript" else DetectLanguage(changes[pick % |changes|].filePath);
    CodeMetadata(language, Some("express"), context.patterns, CalculateComplexity(changes))
  }

  /** When every change is in one language, that is the primary language,
      whatever the set's order. */
  lemma MetadataSingleLanguage(changes: seq<CodeChange>, context: ContextAnalysis, pick: nat, language: string)
    requires changes != []
    requires forall i :: 0 <= i < |changes| ==> DetectLanguage(changes[i].filePath) == language
    ensures GenerateMetadata(changes, context, pick).language == language
  {
  }

  // ---------------------------------------------------------------------
  // Assembly

  /** `generate_code`: analysis, changes, validation and metadata, stopping
      at the first failing model call. */
  method GenerateCode(
    analyze: CodeRequest -> Result<ContextAnalysis>,
    generate: (CodeRequest, ContextAnalysis) -> Result<seq<CodeChange>>,
    pick: nat,
    request: CodeRequest)
    returns (r: Result<CodeStream>)
    ensures r.Ok? <==> analyze(request).Ok? && generate(request, analyze(request).value).Ok?
    ensures analyze(request).Err? ==> r == Err(analyze(request).error)
    ensures analyze(request).Ok? && generate(request, analyze(request).value).Err? ==>
      r == Err(generate(request, analyze(request).value).error)
    ensures r.Ok? ==>
      var changes := generate(request, analyze(request).value).value;
      r.value == CodeStream(changes, GenerateMetadata(changes, analyze(request).value, pick),
        DependenciesOf(changes), WarningsOf(changes))
  {
    var analysis := analyze(request);
    if analysis.Err? {
      return Err(analysis.error);
    }
    var changes := generate(request, analysis.value);
    if changes.Err? {
      return Err(changes.error);
    }
    var validation := ValidateChanges(changes.value);
    var metadata := GenerateMetadata(changes.value, analysis.value, pick);
    r := Ok(CodeStream(changes.value, metadata, validation.dependencies, validation.warnings));
  }
}
