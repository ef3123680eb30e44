/** The verify subgraph: plan discovery, plan execution, mechanical verdict, semantic verdict. */
module Verdict {
  import opened Common
  import opened IssueComments
  import opened PipelineState

  // ---------- Plan discovery ----------

  predicate Runnable(step: Option<Step>) {
    step.Some? && step.value.argv != []
  }

  predicate PlanIsEmpty(plan: Option<Plan>) {
    plan.None? ||
    var p := plan.value;
    !(Runnable(p.test) || Runnable(p.compile) || exists step | step in p.lint :: step.argv != [])
  }

  /** The planner's turn: no structured output, or a plan. */
  datatype PlannerReply = NoOutput | Planned(plan: Plan)

  /** `ensure_plan_node`: a cached non-empty plan is kept; a failed discovery is a hard finding. */
  function EnsurePlan(state: State, planner: PlannerReply): State {
    if !PlanIsEmpty(state.plan) then state
    else match planner
      case NoOutput =>
        state.(findings := state.findings + [Finding("verify_planner", "error", "discovery_failed")])
      case Planned(plan) =>
        var planned := state.(plan := Some(plan), planRev := state.planRev + 1);
        if PlanIsEmpty(Some(plan))
        then planned.(findings := state.findings + [Finding("verify_planner", "error", "empty_plan")])
        else planned
  }

  // ---------- Plan execution ----------

  /** A declared JUnit report: were any files parsed, how many tests failed, which files were broken. */
  datatype Junit = Junit(parsedFiles: bool, failed: nat, parseErrors: seq<string>)

  /** What running one step produced. `parsed` holds the findings of a declared report that exists. */
  datatype Outcome = Outcome(returncode: int, timedOut: bool, tail: string,
                             junit: Option<Junit>, parsed: Option<seq<Finding>>)

  function RunTestStep(step: Step, o: Outcome): TestResult {
    var timeout := if o.timedOut then ["timed_out"] else [];
    var tail := if o.tail != "" then [o.tail] else [];
    match o.junit
    case Some(report) =>
      var missing := if !report.parsedFiles && o.returncode != 0 then tail + ["no report emitted"] else [];
      TestResult(step.name, o.returncode, report.failed, timeout + missing + report.parseErrors)
    case None =>
      var errors := if o.returncode == 0 then [] else if o.tail != "" then tail else ["exited non-zero"];
      TestResult(step.name, o.returncode, 0, timeout + errors)
  }

  /** A parsed report is the truth; otherwise a failing step is one finding, blocking iff required. */
  function RunFindingStep(step: Step, o: Outcome, rule: string): seq<Finding> {
    match o.parsed
    case Some(findings) => findings
    case None =>
      if o.returncode == 0 && !o.timedOut then []
      else [Finding(step.name, if step.required then "error" else "warn", rule)]
  }

  /** The oracle for one verify cycle; `sandbox` is false when no sandbox could be had. */
  datatype Evidence = Evidence(planner: PlannerReply, sandbox: bool, test: Outcome, compile: Outcome,
                               lint: nat -> Outcome, coverage: seq<Coverage>)

  function LintFindings(lint: seq<Step>, outcomes: nat -> Outcome): seq<Finding> {
    if lint == [] then []
    else
      var n := |lint| - 1;
      LintFindings(lint[..n], outcomes)
      + if lint[n].argv == [] then [] else RunFindingStep(lint[n], outcomes(n), "lint")
  }

  /** What one cycle's plan run records. */
  function NewTestResults(plan: Option<Plan>, ev: Evidence): seq<TestResult> {
    if !ev.sandbox || PlanIsEmpty(plan) || !Runnable(plan.value.test) then []
    else [RunTestStep(plan.value.test.value, ev.test)]
  }

  function NewFindings(plan: Option<Plan>, ev: Evidence): seq<Finding> {
    if !ev.sandbox || PlanIsEmpty(plan) then []
    else
      (if Runnable(plan.value.compile) then RunFindingStep(plan.value.compile.value, ev.compile, "compile") else [])
      + LintFindings(plan.value.lint, ev.lint)
  }

  /** The loop of `run_plan_node` over the lint steps. */
  method RunLint(lint: seq<Step>, outcomes: nat -> Outcome, before: seq<Finding>) returns (findings: seq<Finding>)
    ensures findings == before + LintFindings(lint, outcomes)
  {
    findings := before;
    for n := 0 to |lint|
      invariant findings == before + LintFindings(lint[..n], outcomes)
    {
      assert lint[..n + 1][..n] == lint[..n];
      if lint[n].argv != [] {
        findings := findings + RunFindingStep(lint[n], outcomes(n), "lint");
      }
    }
    assert lint[..|lint|] == lint;
  }

  /** `run_plan_node`: the delta it returns. */
  method RunPlan(plan: Option<Plan>, ev: Evidence) returns (results: seq<TestResult>, findings: seq<Finding>)
    ensures results == NewTestResults(plan, ev) && findings == NewFindings(plan, ev)
  {
    results, findings := [], [];
    if !PlanIsEmpty(plan) && ev.sandbox {
      if Runnable(plan.value.test) {
        results := results + [RunTestStep(plan.value.test.value, ev.test)];
      }
      if Runnable(plan.value.compile) {
        findings := findings + RunFindingStep(plan.value.compile.value, ev.compile, "compile");
      }
      findings := RunLint(plan.value.lint, ev.lint, findings);
    }
  }

  // ---------- Expected predicates ----------

  function NonEmptyTexts(texts: seq<string>): seq<string> {
    if texts == [] then []
    else
      var last := Strip(texts[|texts| - 1]);
      NonEmptyTexts(texts[..|texts| - 1]) + if last != "" then [last] else []
  }

  function PredicateValues(v: Verification): seq<string> {
    match v
    case NoPredicates => []
    case OneText(text) => NonEmptyTexts([text])
    case Texts(texts) => NonEmptyTexts(texts)
  }

  /** A work package with one of its predicates. */
  datatype Key = Key(wpId: string, text: string)

  function KeysOf(wpId: string, texts: seq<string>): seq<Key> {
    if texts == [] then [] else KeysOf(wpId, texts[..|texts| - 1]) + [Key(wpId, texts[|texts| - 1])]
  }

  /** All keys of the brief's packages and the spec's slices, in reading order. */
  function AllKeys(items: seq<WorkItem>): seq<Key> {
    if items == [] then []
    else
      var last := items[|items| - 1];
      AllKeys(items[..|items| - 1]) + KeysOf(ItemId(last), PredicateValues(last.verification))
  }

  function Unique(keys: seq<Key>): seq<Key> {
    if keys == [] then []
    else
      var kept, last := Unique(keys[..|keys| - 1]), keys[|keys| - 1];
      if last in kept then kept else kept + [last]
  }

  function Expected(state: State): seq<Key> {
    Unique(AllKeys(state.briefItems + state.spec))
  }

  lemma {:induction false} KeysOfMeans(wpId: string, texts: seq<string>, key: Key)
    ensures key in KeysOf(wpId, texts) <==> key.wpId == wpId && key.text in texts
  {
    if texts != [] {
      KeysOfMeans(wpId, texts[..|texts| - 1], key);
      assert texts == texts[..|texts| - 1] + [texts[|texts| - 1]];
    }
  }

  lemma {:induction false} NonEmptyTextsMean(texts: seq<string>, text: string)
    ensures text in NonEmptyTexts(texts) <==> text != "" && exists raw | raw in texts :: Strip(raw) == text
  {
    if texts != [] {
      var init, last := texts[..|texts| - 1], texts[|texts| - 1];
      NonEmptyTextsMean(init, text);
      assert texts == init + [last];
    }
  }

  /** A work package asks for the predicate: its verification is this text, or lists it. */
  predicate Asks(item: WorkItem, text: string) {
    match item.verification
    case NoPredicates => false
    case OneText(raw) => Strip(raw) == text
    case Texts(texts) => exists raw | raw in texts :: Strip(raw) == text
  }

  /** A pair is expected iff some package of brief or spec with that id (or, without an id, that story
      id) asks for the predicate, which is not empty. */
  lemma {:induction false} AllKeysMeans(items: seq<WorkItem>, key: Key)
    ensures key in AllKeys(items) <==>
      key.text != "" && exists item | item in items :: ItemId(item) == key.wpId && Asks(item, key.text)
  {
    hide Strip;
    if items != [] {
      var init, last := items[..|items| - 1], items[|items| - 1];
      AllKeysMeans(init, key);
      assert items == init + [last];
      KeysOfMeans(ItemId(last), PredicateValues(last.verification), key);
      match last.verification
      case NoPredicates =>
      case OneText(raw) => NonEmptyTextsMean([raw], key.text);
      case Texts(texts) => NonEmptyTextsMean(texts, key.text);
    }
  }

  lemma {:induction false} UniqueFacts(keys: seq<Key>)
    ensures Distinct(Unique(keys))
    ensures forall k :: k in Unique(keys) <==> k in keys
  {
    if keys != [] {
      UniqueFacts(keys[..|keys| - 1]);
      assert keys == keys[..|keys| - 1] + [keys[|keys| - 1]];
    }
  }

  lemma UniqueOne(keys: seq<Key>, key: Key)
    ensures Unique(keys + [key]) == if key in Unique(keys) then Unique(keys) else Unique(keys) + [key]
  {
    assert (keys + [key])[..|keys + [key]| - 1] == keys;
  }

  /** The nested `add` of `_expected_predicates`. */
  method AddKeys(expected: seq<Key>, wpId: string, texts: seq<string>, ghost history: seq<Key>)
    returns (out: seq<Key>)
    requires expected == Unique(history)
    ensures out == Unique(history + KeysOf(wpId, texts))
  {
    out := expected;
    assert history + [] == history;
    var seen := set k | k in expected;
    for n := 0 to |texts|
      invariant out == Unique(history + KeysOf(wpId, texts[..n]))
      invariant forall k :: k in seen <==> k in out
    {
      var key := Key(wpId, texts[n]);
      assert texts[..n + 1][..n] == texts[..n];
      assert history + KeysOf(wpId, texts[..n + 1]) == history + KeysOf(wpId, texts[..n]) + [key];
      UniqueOne(history + KeysOf(wpId, texts[..n]), key);
      if key !in seen {
        seen := seen + {key};
        out := out + [key];
      }
    }
    assert texts[..|texts|] == texts;
  }

  lemma AllKeysOne(items: seq<WorkItem>, n: nat)
    requires n < |items|
    ensures AllKeys(items[..n + 1])
         == AllKeys(items[..n]) + KeysOf(ItemId(items[n]), PredicateValues(items[n].verification))
  {
    assert items[..n + 1][..n] == items[..n];
  }

  /** `_expected_predicates`: brief first, then spec, nothing twice. */
  method ExpectedPredicates(state: State) returns (expected: seq<Key>)
    ensures expected == Expected(state) && Distinct(expected)
    ensures forall k :: k in expected <==> k in AllKeys(state.briefItems + state.spec)
  {
    var items := state.briefItems + state.spec;
    expected := [];
    for n := 0 to |items|
      invariant expected == Unique(AllKeys(items[..n]))
    {
      expected := AddKeys(expected, ItemId(items[n]), PredicateValues(items[n].verification), AllKeys(items[..n]));
      AllKeysOne(items, n);
    }
    assert items[..|items|] == items;
    UniqueFacts(AllKeys(items));
  }

  // ---------- Coverage ----------

  /** The status of the last coverage entry for a key. */
  function LastStatus(coverage: seq<Coverage>, key: Key): Option<string> {
    if coverage == [] then None
    else
      var last := coverage[|coverage| - 1];
      if Strip(last.text) != "" && Key(last.wpId, Strip(last.text)) == key then Some(last.status)
      else LastStatus(coverage[..|coverage| - 1], key)
  }

  /** Entry i is the last word on a key: the package and the stripped text are the key's. */
  ghost predicate IsLastWord(coverage: seq<Coverage>, key: Key, i: int) {
    && 0 <= i < |coverage| && Speaks(coverage[i], key)
    && forall j :: i < j < |coverage| ==> !Speaks(coverage[j], key)
  }

  ghost predicate Speaks(item: Coverage, key: Key) {
    item.wpId == key.wpId && Strip(item.text) == key.text && key.text != ""
  }

  lemma {:induction false} LastStatusExact(coverage: seq<Coverage>, key: Key)
    ensures forall status :: LastStatus(coverage, key) == Some(status) <==>
      exists i :: IsLastWord(coverage, key, i) && coverage[i].status == status
    ensures LastStatus(coverage, key) == None <==> forall i :: 0 <= i < |coverage| ==> !Speaks(coverage[i], key)
  {
    if coverage != [] {
      var n := |coverage| - 1;
      LastStatusExact(coverage[..n], key);
      if Speaks(coverage[n], key) {
        assert IsLastWord(coverage, key, n);
      } else {
        assert forall i :: IsLastWord(coverage[..n], key, i) <==> IsLastWord(coverage, key, i);
      }
    }
  }

  /** Covered: the last word on the key says so. */
  lemma CoveredIff(coverage: seq<Coverage>, key: Key)
    ensures IsCovered(coverage, key) <==> LastWordCovers(coverage, key)
  {
    LastStatusExact(coverage, key);
  }

  /** The last word on the key is "covered". */
  predicate IsCovered(coverage: seq<Coverage>, key: Key) {
    LastStatus(coverage, key) == Some(COVERED)
  }

  function CountOpen(expected: seq<Key>, coverage: seq<Coverage>): nat {
    if expected == [] then 0
    else
      CountOpen(expected[..|expected| - 1], coverage)
      + if IsCovered(coverage, expected[|expected| - 1]) then 0 else 1
  }

  function CountNotCovered(coverage: seq<Coverage>): nat {
    if coverage == [] then 0
    else CountNotCovered(coverage[..|coverage| - 1]) + if coverage[|coverage| - 1].status != COVERED then 1 else 0
  }

  function UncoveredCount(expected: seq<Key>, coverage: seq<Coverage>): nat {
    if expected != [] then CountOpen(expected, coverage) else CountNotCovered(coverage)
  }

  ghost predicate LastWordCovers(coverage: seq<Coverage>, key: Key) {
    exists i :: IsLastWord(coverage, key, i) && coverage[i].status == COVERED
  }

  /** `_uncovered_predicates`: a dictionary filled in order, then a count. */
  method UncoveredPredicates(expected: seq<Key>, coverage: seq<Coverage>) returns (open: nat)
    ensures open == UncoveredCount(expected, coverage)
    ensures expected != [] ==> (open == 0 <==> forall key :: key in expected ==> LastWordCovers(coverage, key))
    ensures expected == [] ==> (open == 0 <==> forall item :: item in coverage ==> item.status == COVERED)
  {
    var byKey: map<Key, string> := map[];
    for n := 0 to |coverage|
      invariant forall key :: LastStatus(coverage[..n], key) == if key in byKey then Some(byKey[key]) else None
    {
      assert coverage[..n + 1][..n] == coverage[..n];
      var text := Strip(coverage[n].text);
      if text != "" {
        byKey := byKey[Key(coverage[n].wpId, text) := coverage[n].status];
      }
    }
    assert coverage[..|coverage|] == coverage;
    open := 0;
    if expected != [] {
      for n := 0 to |expected|
        invariant open == CountOpen(expected[..n], coverage)
      {
        assert expected[..n + 1][..n] == expected[..n];
        assert LastStatus(coverage, expected[n]) == if expected[n] in byKey then Some(byKey[expected[n]]) else None;
        if !(expected[n] in byKey && byKey[expected[n]] == COVERED) {
          open := open + 1;
        }
      }
      assert expected[..|expected|] == expected;
      CountOpenZero(expected, coverage);
      return;
    }
    for n := 0 to |coverage|
      invariant open == CountNotCovered(coverage[..n])
    {
      assert coverage[..n + 1][..n] == coverage[..n];
      if coverage[n].status != COVERED {
        open := open + 1;
      }
    }
    assert coverage[..|coverage|] == coverage;
    CountNotCoveredZero(coverage);
  }

  /** Nothing is open iff every expected key was last reported covered; with none expected, iff
      every entry is covered. */
  ghost predicate AllCovered(expected: seq<Key>, coverage: seq<Coverage>) {
    if expected != [] then forall key :: key in expected ==> LastWordCovers(coverage, key)
    else forall item :: item in coverage ==> item.status == COVERED
  }

  lemma {:induction false} CountOpenZero(expected: seq<Key>, coverage: seq<Coverage>)
    ensures CountOpen(expected, coverage) == 0 <==> forall key :: key in expected ==> LastWordCovers(coverage, key)
  {
    hide LastWordCovers, IsCovered;
    if expected != [] {
      var init, last := expected[..|expected| - 1], expected[|expected| - 1];
      CountOpenZero(init, coverage);
      CoveredIff(coverage, last);
      assert expected == init + [last];
      assert forall key :: key in expected <==> key in init || key == last;
    }
  }

  lemma {:induction false} CountNotCoveredZero(coverage: seq<Coverage>)
    ensures CountNotCovered(coverage) == 0 <==> forall item :: item in coverage ==> item.status == COVERED
  {
    if coverage != [] {
      CountNotCoveredZero(coverage[..|coverage| - 1]);
      assert coverage == coverage[..|coverage| - 1] + [coverage[|coverage| - 1]];
    }
  }

  // ---------- The verdict ----------

  predicate Clean(r: TestResult) {
    r.failed <= 0 && r.returncode == 0 && r.errors == []
  }

  predicate Hard(f: Finding) {
    f.severity == "error" || f.severity == "critical"
  }

  function FailedTests(results: seq<TestResult>): nat {
    if results == [] then 0
    else FailedTests(results[..|results| - 1]) + if Clean(results[|results| - 1]) then 0 else 1
  }

  function HardFindings(findings: seq<Finding>): nat {
    if findings == [] then 0
    else HardFindings(findings[..|findings| - 1]) + if Hard(findings[|findings| - 1]) then 1 else 0
  }

  function BlockingRecon(findings: seq<ReconFinding>): nat {
    if findings == [] then 0
    else BlockingRecon(findings[..|findings| - 1]) + if BlockingKind(findings[|findings| - 1].kind) then 1 else 0
  }

  function BlockingFailures(state: State): nat {
    |state.testerFindings| + BlockingRecon(state.reconFindings)
  }

  /** `_aggregate_verify_summary`; `semantic` is the coverage when the semantic step calls it. */
  function Summarize(state: State, semantic: Option<seq<Coverage>>): Summary {
    var tests, hard, blocking := FailedTests(state.testResults), HardFindings(state.findings), BlockingFailures(state);
    var mechanical := tests == 0 && hard == 0 && blocking == 0;
    match semantic
    case None => Summary(mechanical, tests, hard, blocking, [], 0)
    case Some(coverage) =>
      var open := UncoveredCount(Expected(state), coverage);
      Summary(mechanical && open == 0, tests, hard, blocking, coverage, open)
  }

  /** `aggregate`. */
  function Aggregate(state: State): State {
    var summary := Summarize(state, None);
    state.(summary := Some(summary),
           verifyRetries := if summary.passed then state.verifyRetries else state.verifyRetries + 1)
  }

  predicate HasPredicates(state: State) {
    Expected(state) != [] || exists entry | entry in state.coverageEntries :: Strip(entry) != ""
  }

  /** `run_semantic_coverage_node`: skipped without predicates; counts a retry only when the
      mechanical verdict had passed. */
  function SemanticCoverage(state: State, coverage: seq<Coverage>): State {
    if !HasPredicates(state) then state
    else
      var summary := Summarize(state, Some(coverage));
      var previousPassed := state.summary.Some? ==> state.summary.value.passed;
      state.(summary := Some(summary),
             verifyRetries := if !summary.passed && previousPassed then state.verifyRetries + 1 else state.verifyRetries)
  }

  /** The plan run's delta through the concatenating reducers of the subgraph. */
  function RunPlanNode(state: State, ev: Evidence): State {
    state.(testResults := state.testResults + NewTestResults(state.plan, ev),
           findings := state.findings + NewFindings(state.plan, ev))
  }

  function VerifySubgraph(state: State, ev: Evidence): State {
    SemanticCoverage(Aggregate(RunPlanNode(EnsurePlan(state, ev.planner), ev)), ev.coverage)
  }

  /** One verify cycle as the workflows run it: clear the verify-owned channels, run the activity on
      the cleared state, merge what it returns; the reducers append the result to the cleared lists. */
  function VerifyCycle(state: State, ev: Evidence): State {
    var cleared := state.(testResults := [], findings := []);
    var result := VerifySubgraph(cleared, ev);
    cleared.(testResults := cleared.testResults + result.testResults,
             findings := cleared.findings + result.findings,
             summary := result.summary, plan := result.plan, planRev := result.planRev,
             verifyRetries := result.verifyRetries)
  }

  predicate Passed(state: State) {
    state.summary.Some? && state.summary.value.passed
  }

  /** `_aggregate_verify_summary`, with the two collecting loops it calls. */
  method AggregateVerifySummary(state: State, semantic: Option<seq<Coverage>>) returns (summary: Summary)
    ensures summary == Summarize(state, semantic)
  {
    var tests, hard, blocking := FailedTests(state.testResults), HardFindings(state.findings), BlockingFailures(state);
    var mechanical := tests == 0 && hard == 0 && blocking == 0;
    if semantic == None {
      return Summary(mechanical, tests, hard, blocking, [], 0);
    }
    var expected := ExpectedPredicates(state);
    var open := UncoveredPredicates(expected, semantic.value);
    summary := Summary(mechanical && open == 0, tests, hard, blocking, semantic.value, open);
  }

  method RunPlanStep(state: State, ev: Evidence) returns (after: State)
    ensures after == RunPlanNode(state, ev)
  {
    var results, findings := RunPlan(state.plan, ev);
    after := state.(testResults := state.testResults + results, findings := state.findings + findings);
  }

  method AggregateStep(state: State) returns (after: State)
    ensures after == Aggregate(state)
  {
    var summary := AggregateVerifySummary(state, None);
    after := state.(summary := Some(summary),
                    verifyRetries := if summary.passed then state.verifyRetries else state.verifyRetries + 1);
  }

  method SemanticStep(state: State, coverage: seq<Coverage>) returns (after: State)
    ensures after == SemanticCoverage(state, coverage)
  {
    hide Summarize, HasPredicates;
    after := state;
    if HasPredicates(state) {
      var summary := AggregateVerifySummary(state, Some(coverage));
      var previousPassed := state.summary.Some? ==> state.summary.value.passed;
      after := after.(summary := Some(summary));
      if !summary.passed && previousPassed {
        after := after.(verifyRetries := state.verifyRetries + 1);
      }
    }
  }

  /** One verify cycle: the four nodes of the subgraph on cleared evidence, and the merge of what they
      leave. Both run controllers call it. */
  method RunVerify(state: State, ev: Evidence) returns (after: State)
    ensures after == VerifyCycle(state, ev)
  {
    hide EnsurePlan, RunPlanNode, Aggregate, SemanticCoverage;
    var cleared := state.(testResults := [], findings := []);
    var result := RunPlanStep(EnsurePlan(cleared, ev.planner), ev);
    result := AggregateStep(result);
    result := SemanticStep(result, ev.coverage);
    after := cleared.(testResults := cleared.testResults + result.testResults,
                      findings := cleared.findings + result.findings,
                      summary := result.summary, plan := result.plan, planRev := result.planRev,
                      verifyRetries := result.verifyRetries);
  }

  // ---------- What the verdict means ----------

  lemma {:induction false} FailedTestsZero(results: seq<TestResult>)
    ensures FailedTests(results) == 0 <==> forall r :: r in results ==> Clean(r)
  {
    if results != [] {
      FailedTestsZero(results[..|results| - 1]);
      assert results == results[..|results| - 1] + [results[|results| - 1]];
    }
  }

  lemma {:induction false} HardFindingsZero(findings: seq<Finding>)
    ensures HardFindings(findings) == 0 <==> forall f :: f in findings ==> !Hard(f)
  {
    if findings != [] {
      HardFindingsZero(findings[..|findings| - 1]);
      assert findings == findings[..|findings| - 1] + [findings[|findings| - 1]];
    }
  }

  lemma {:induction false} BlockingReconZero(findings: seq<ReconFinding>)
    ensures BlockingRecon(findings) == 0 <==> forall f :: f in findings ==> !BlockingKind(f.kind)
  {
    if findings != [] {
      BlockingReconZero(findings[..|findings| - 1]);
      assert findings == findings[..|findings| - 1] + [findings[|findings| - 1]];
    }
  }

  /** No test failed, nothing hard was found, no agent left a blocking finding. */
  ghost predicate MechanicallyClean(state: State) {
    && (forall r :: r in state.testResults ==> Clean(r))
    && (forall f :: f in state.findings ==> !Hard(f))
    && state.testerFindings == []
    && (forall f :: f in state.reconFindings ==> !BlockingKind(f.kind))
  }

  lemma MechanicalExact(state: State)
    ensures Summarize(state, None).passed <==> MechanicallyClean(state)
  {
    FailedTestsZero(state.testResults);
    HardFindingsZero(state.findings);
    BlockingReconZero(state.reconFindings);
  }

  /** The semantic step after the mechanical one: the final verdict, and one retry iff it failed. */
  lemma SemanticExact(state: State, coverage: seq<Coverage>)
    ensures var final := SemanticCoverage(Aggregate(state), coverage);
      && final.summary.Some?
      && (Passed(final) <==> MechanicallyClean(state) && (HasPredicates(state) ==> AllCovered(Expected(state), coverage)))
      && final.verifyRetries == state.verifyRetries + (if Passed(final) then 0 else 1)
      && final == state.(summary := final.summary, verifyRetries := final.verifyRetries)
  {
    MechanicalExact(state);
    CountOpenZero(Expected(state), coverage);
    CountNotCoveredZero(coverage);
    var aggregated := Aggregate(state);
    assert Expected(aggregated) == Expected(state) && HasPredicates(aggregated) == HasPredicates(state);
    assert Summarize(aggregated, Some(coverage)) == Summarize(state, Some(coverage));
  }

  /** The state the mechanical verdict is computed on: only this cycle's evidence. */
  function Gathered(state: State, ev: Evidence): State {
    RunPlanNode(EnsurePlan(state.(testResults := [], findings := []), ev.planner), ev)
  }

  lemma GatheredIsFresh(state: State, ev: Evidence)
    ensures var g := Gathered(state, ev);
      && g.testResults == NewTestResults(g.plan, ev)
      && g.findings == EnsurePlan(state.(testResults := [], findings := []), ev.planner).findings + NewFindings(g.plan, ev)
      && g == state.(testResults := g.testResults, findings := g.findings, plan := g.plan, planRev := g.planRev)
  {
    var planned := EnsurePlan(state.(testResults := [], findings := []), ev.planner);
    assert planned.testResults == [];
  }

  lemma CycleFromGathered(state: State, ev: Evidence)
    ensures VerifyCycle(state, ev) == SemanticCoverage(Aggregate(Gathered(state, ev)), ev.coverage)
  {
    GatheredIsFresh(state, ev);
    SemanticExact(Gathered(state, ev), ev.coverage);
  }

  /** The final verdict of a cycle passes iff its evidence is clean and, when there are predicates to
      cover, the semantic verifier covered them all. */
  lemma VerdictExact(state: State, ev: Evidence)
    ensures var final := VerifyCycle(state, ev);
      final.summary.Some? &&
      (Passed(final) <==>
        MechanicallyClean(final) && (HasPredicates(state) ==> AllCovered(Expected(state), ev.coverage)))
  {
    CycleFromGathered(state, ev);
    GatheredIsFresh(state, ev);
    SemanticExact(Gathered(state, ev), ev.coverage);
  }

  /** The plan a cycle runs: the cached one, else whatever the planner discovers. */
  function PlanUsed(state: State, ev: Evidence): Option<Plan> {
    if PlanIsEmpty(state.plan) && ev.planner.Planned? then Some(ev.planner.plan) else state.plan
  }

  /** The test command ended well: no error exit, no timeout, and no failure or broken file in a
      declared report. */
  predicate TestStepOk(o: Outcome) {
    && o.returncode == 0 && !o.timedOut
    && (o.junit.Some? ==> o.junit.value.failed == 0 && o.junit.value.parseErrors == [])
  }

  /** A compile or lint step lets the verdict pass: with a parsed report that is all that counts,
      without one a step that is not required, or a good exit. */
  ghost predicate FindingStepOk(step: Step, o: Outcome) {
    match o.parsed
    case Some(findings) => forall f :: f in findings ==> !Hard(f)
    case None => step.required ==> o.returncode == 0 && !o.timedOut
  }

  ghost predicate StepsOk(plan: Plan, ev: Evidence) {
    && (Runnable(plan.test) ==> TestStepOk(ev.test))
    && (Runnable(plan.compile) ==> FindingStepOk(plan.compile.value, ev.compile))
    && forall n :: 0 <= n < |plan.lint| && plan.lint[n].argv != [] ==> FindingStepOk(plan.lint[n], ev.lint(n))
  }

  /** One cycle's own evidence is good: there is something to run, every step that could be run ended
      well, and every predicate was covered. */
  ghost predicate EvidenceClean(state: State, ev: Evidence) {
    && !PlanIsEmpty(PlanUsed(state, ev))
    && (ev.sandbox ==> StepsOk(PlanUsed(state, ev).value, ev))
    && (HasPredicates(state) ==> AllCovered(Expected(state), ev.coverage))
  }

  /** Builder, tester or fixer left something behind that blocks every verdict. */
  predicate Blocked(state: State) {
    state.testerFindings != [] || AnyBlocking(state.reconFindings)
  }

  ghost predicate NoneHard(findings: seq<Finding>) {
    forall f :: f in findings ==> !Hard(f)
  }

  lemma NoneHardConcat(a: seq<Finding>, b: seq<Finding>)
    ensures NoneHard(a + b) <==> NoneHard(a) && NoneHard(b)
  {
    assert forall f :: f in a || f in b <==> f in a + b;
  }

  /** What a step records is harmless iff the step ended well. */
  lemma FindingStepExact(step: Step, o: Outcome, rule: string)
    ensures NoneHard(RunFindingStep(step, o, rule)) <==> FindingStepOk(step, o)
  {
    var synthetic := Finding(step.name, if step.required then "error" else "warn", rule);
    assert Hard(synthetic) <==> step.required;
    assert synthetic in [synthetic];
  }

  lemma TestStepExact(step: Step, o: Outcome)
    ensures Clean(RunTestStep(step, o)) <==> TestStepOk(o)
  {}

  lemma {:induction false} LintExact(lint: seq<Step>, outcomes: nat -> Outcome)
    ensures NoneHard(LintFindings(lint, outcomes)) <==>
      forall n :: 0 <= n < |lint| && lint[n].argv != [] ==> FindingStepOk(lint[n], outcomes(n))
  {
    if lint != [] {
      var n := |lint| - 1;
      var rest, last := LintFindings(lint[..n], outcomes), RunFindingStep(lint[n], outcomes(n), "lint");
      LintExact(lint[..n], outcomes);
      FindingStepExact(lint[n], outcomes(n), "lint");
      NoneHardConcat(rest, if lint[n].argv == [] then [] else last);
      assert forall k :: 0 <= k < n ==> lint[..n][k] == lint[k];
    }
  }

  /** The plan's run records nothing that fails the verdict iff all its steps ended well. */
  lemma PlanRunExact(plan: Plan, ev: Evidence)
    requires ev.sandbox && !PlanIsEmpty(Some(plan))
    ensures (forall r :: r in NewTestResults(Some(plan), ev) ==> Clean(r)) && NoneHard(NewFindings(Some(plan), ev))
      <==> StepsOk(plan, ev)
  {
    if Runnable(plan.test) {
      TestStepExact(plan.test.value, ev.test);
    }
    if Runnable(plan.compile) {
      FindingStepExact(plan.compile.value, ev.compile, "compile");
    }
    LintExact(plan.lint, ev.lint);
    var compile := if Runnable(plan.compile) then RunFindingStep(plan.compile.value, ev.compile, "compile") else [];
    NoneHardConcat(compile, LintFindings(plan.lint, ev.lint));
    assert NoneHard([]);
    assert forall r :: r in NewTestResults(Some(plan), ev) <==>
      Runnable(plan.test) && r == RunTestStep(plan.test.value, ev.test);
  }

  /** A cycle's records are clean iff its evidence gave it reason to be. */
  lemma GatheredClean(state: State, ev: Evidence)
    ensures MechanicallyClean(Gathered(state, ev)) <==>
      !Blocked(state) && !PlanIsEmpty(PlanUsed(state, ev)) && (ev.sandbox ==> StepsOk(PlanUsed(state, ev).value, ev))
  {
    hide StepsOk, NewTestResults, NewFindings, BlockingKind, Hard, Clean;
    GatheredRecords(state, ev);
    var plan := PlanUsed(state, ev);
    if PlanIsEmpty(plan) {
      NoPlanIsHard(state.(testResults := [], findings := []), ev.planner);
    } else if ev.sandbox {
      PlanRunExact(plan.value, ev);
    }
  }

  lemma GatheredRecords(state: State, ev: Evidence)
    ensures var g := Gathered(state, ev); var plan := PlanUsed(state, ev);
      && g.plan == plan && g.testerFindings == state.testerFindings && g.reconFindings == state.reconFindings
      && (PlanIsEmpty(plan) ==> g.findings == EnsurePlan(state.(testResults := [], findings := []), ev.planner).findings)
      && (PlanIsEmpty(plan) ==> PlanIsEmpty(EnsurePlan(state.(testResults := [], findings := []), ev.planner).plan))
      && (!PlanIsEmpty(plan) ==> g.findings == NewFindings(plan, ev))
      && g.testResults == NewTestResults(plan, ev)
      && (!ev.sandbox ==> g.testResults == [] && (!PlanIsEmpty(plan) ==> g.findings == []))
  {
    GatheredIsFresh(state, ev);
  }

  /** The verdict in terms of what happened: a cycle passes iff its own evidence is good and no agent
      has left a blocking finding. */
  lemma VerdictFromEvidence(state: State, ev: Evidence)
    ensures Passed(VerifyCycle(state, ev)) <==> !Blocked(state) && EvidenceClean(state, ev)
  {
    CycleFromGathered(state, ev);
    GatheredClean(state, ev);
    GatheredKeepsPredicates(state, ev);
    SemanticExact(Gathered(state, ev), ev.coverage);
  }

  lemma GatheredKeepsPredicates(state: State, ev: Evidence)
    ensures HasPredicates(Gathered(state, ev)) == HasPredicates(state)
    ensures Expected(Gathered(state, ev)) == Expected(state)
  {
    GatheredIsFresh(state, ev);
  }

  /** The coverage a cycle leaves in its summary. */
  lemma CycleCoverage(state: State, ev: Evidence)
    ensures var final := VerifyCycle(state, ev);
      final.summary.Some? && final.summary.value.coverage == if HasPredicates(state) then ev.coverage else []
    ensures var final := VerifyCycle(state, ev);
      && final.testerFindings == state.testerFindings && final.reconFindings == state.reconFindings
      && final.currentSlice == state.currentSlice && final.briefItems == state.briefItems && final.spec == state.spec
      && final.attemptsByWp == state.attemptsByWp && final.attemptsByPredicate == state.attemptsByPredicate
  {
    CycleFromGathered(state, ev);
    GatheredIsFresh(state, ev);
    GatheredKeepsPredicates(state, ev);
    SemanticLeaves(Gathered(state, ev), ev.coverage);
  }

  lemma SemanticLeaves(state: State, coverage: seq<Coverage>)
    ensures var final := SemanticCoverage(Aggregate(state), coverage);
      && final.summary.Some? && final.summary.value.coverage == (if HasPredicates(state) then coverage else [])
      && final == state.(summary := final.summary, verifyRetries := final.verifyRetries)
  {
    var aggregated := Aggregate(state);
    assert Expected(aggregated) == Expected(state) && HasPredicates(aggregated) == HasPredicates(state);
  }

  /** Without a sandbox nothing is executed and nothing is recorded, and the verdict can still pass:
      the outcomes do not matter at all. */
  lemma NoSandboxStillPasses(state: State, ev: Evidence)
    requires !ev.sandbox
    ensures NewTestResults(PlanUsed(state, ev), ev) == [] && NewFindings(PlanUsed(state, ev), ev) == []
    ensures Passed(VerifyCycle(state, ev)) <==>
      && !Blocked(state) && !PlanIsEmpty(PlanUsed(state, ev))
      && (HasPredicates(state) ==> AllCovered(Expected(state), ev.coverage))
  {
    VerdictFromEvidence(state, ev);
  }

  /** A failing required step is let through iff it left a parsed report without a hard finding. */
  lemma RequiredFailureHiddenIff(step: Step, o: Outcome, rule: string)
    requires step.required && (o.returncode != 0 || o.timedOut)
    ensures NoneHard(RunFindingStep(step, o, rule)) <==> o.parsed.Some? && NoneHard(o.parsed.value)
  {
    FindingStepExact(step, o, rule);
  }

  lemma NoPlanIsHard(state: State, planner: PlannerReply)
    requires PlanIsEmpty(EnsurePlan(state, planner).plan)
    ensures exists f :: f in EnsurePlan(state, planner).findings && Hard(f)
  {
    var findings := EnsurePlan(state, planner).findings;
    assert Hard(findings[|findings| - 1]) && findings[|findings| - 1] in findings;
  }

  /** A pass implies that commands to verify with were discovered. */
  lemma PassHasPlan(state: State, ev: Evidence)
    requires Passed(VerifyCycle(state, ev))
    ensures !PlanIsEmpty(VerifyCycle(state, ev).plan)
  {
    CycleFromGathered(state, ev);
    SemanticExact(Gathered(state, ev), ev.coverage);
    var planned := EnsurePlan(state.(testResults := [], findings := []), ev.planner);
    assert forall f :: f in planned.findings ==> f in Gathered(state, ev).findings;
    if PlanIsEmpty(planned.plan) {
      NoPlanIsHard(state.(testResults := [], findings := []), ev.planner);
    }
  }

  /** Whatever the state held before, a cycle leaves exactly its own test results and findings, and
      counts one retry iff its verdict failed. */
  lemma CycleIsFresh(state: State, ev: Evidence)
    ensures var final := VerifyCycle(state, ev);
      && final.testResults == NewTestResults(final.plan, ev)
      && final.findings == EnsurePlan(state.(testResults := [], findings := []), ev.planner).findings
                           + NewFindings(final.plan, ev)
      && final.verifyRetries == state.verifyRetries + (if Passed(final) then 0 else 1)
      && final.testerFindings == state.testerFindings && final.reconFindings == state.reconFindings
  {
    CycleFromGathered(state, ev);
    GatheredIsFresh(state, ev);
    SemanticExact(Gathered(state, ev), ev.coverage);
  }

  /** Old evidence cannot influence a verdict: states that differ only in test results, findings and
      the previous summary verify alike. */
  lemma VerdictIgnoresOldEvidence(state: State, ev: Evidence, results: seq<TestResult>, findings: seq<Finding>,
                                  summary: Option<Summary>)
    ensures VerifyCycle(state.(testResults := results, findings := findings, summary := summary), ev)
         == VerifyCycle(state, ev)
  {
    var other := state.(testResults := results, findings := findings, summary := summary);
    CycleFromGathered(state, ev);
    CycleFromGathered(other, ev);
    assert other.(testResults := [], findings := []) == state.(testResults := [], findings := []).(summary := summary);
    SummaryPassesThrough(state.(testResults := [], findings := []), ev, summary);
  }

  lemma SummaryPassesThrough(state: State, ev: Evidence, summary: Option<Summary>)
    ensures Aggregate(RunPlanNode(EnsurePlan(state.(summary := summary), ev.planner), ev))
         == Aggregate(RunPlanNode(EnsurePlan(state, ev.planner), ev))
  {
    var gathered := RunPlanNode(EnsurePlan(state, ev.planner), ev);
    assert EnsurePlan(state.(summary := summary), ev.planner) == EnsurePlan(state, ev.planner).(summary := summary);
    assert RunPlanNode(EnsurePlan(state.(summary := summary), ev.planner), ev) == gathered.(summary := summary);
    assert Summarize(gathered.(summary := summary), None) == Summarize(gathered, None);
  }

  // ---------- Over a whole run ----------

  /** The state after a run of verify cycles with arbitrary builder and fixer work in between, which
      leaves the retry counter alone. */
  function AfterCycles(state: State, cycles: seq<(State -> State, Evidence)>): State {
    if cycles == [] then state
    else
      var last := cycles[|cycles| - 1];
      var before := last.0(AfterCycles(state, cycles[..|cycles| - 1]));
      VerifyCycle(before, last.1)
  }

  function FailedCycles(state: State, cycles: seq<(State -> State, Evidence)>): nat {
    if cycles == [] then 0
    else FailedCycles(state, cycles[..|cycles| - 1]) + if Passed(AfterCycles(state, cycles)) then 0 else 1
  }

  /** `verify_retries` counts the failed cycles, each once. */
  lemma {:induction false} RetriesCountFailures(state: State, cycles: seq<(State -> State, Evidence)>)
    requires forall i, s :: 0 <= i < |cycles| ==> cycles[i].0(s).verifyRetries == s.verifyRetries
    ensures AfterCycles(state, cycles).verifyRetries == state.verifyRetries + FailedCycles(state, cycles)
  {
    if cycles != [] {
      var init, last := cycles[..|cycles| - 1], cycles[|cycles| - 1];
      RetriesCountFailures(state, init);
      assert last.0(AfterCycles(state, init)).verifyRetries == AfterCycles(state, init).verifyRetries;
      CycleIsFresh(last.0(AfterCycles(state, init)), last.1);
    }
  }
}
