/** The channels of the pipeline state that the run controllers, the verifier and the repair loop
    share. A list channel that is missing and one that is empty read alike everywhere. */
module PipelineState {
  import opened Common

  /** `verification` of a work package: missing, one text, or a list of texts. */
  datatype Verification = NoPredicates | OneText(text: string) | Texts(texts: seq<string>)

  /** A work package of the brief or a slice of the spec; a missing id is "". */
  datatype WorkItem = WorkItem(id: string, storyId: string, verification: Verification)

  datatype Step = Step(name: string, argv: seq<string>, required: bool)

  datatype Plan = Plan(test: Option<Step>, compile: Option<Step>, lint: seq<Step>)

  datatype TestResult = TestResult(runner: string, returncode: int, failed: int, errors: seq<string>)

  datatype Finding = Finding(tool: string, severity: string, rule: string)

  datatype TesterFinding = TesterFinding(kind: string, wpId: string)

  datatype ReconFinding = ReconFinding(kind: string, wpId: string, producer: string)

  datatype Coverage = Coverage(wpId: string, text: string, status: string)

  datatype Summary = Summary(passed: bool, failedTests: nat, hardFindings: nat, blockingFailures: nat,
                             coverage: seq<Coverage>, uncovered: nat)

  /** What the fixer declared. */
  datatype FixerDecision = FixerDecision(decision: string, targetWp: string)

  datatype State = State(
    briefItems: seq<WorkItem>,
    spec: seq<WorkItem>,
    coverageEntries: seq<string>,
    plan: Option<Plan>,
    planRev: nat,
    testResults: seq<TestResult>,
    findings: seq<Finding>,
    testerFindings: seq<TesterFinding>,
    reconFindings: seq<ReconFinding>,
    summary: Option<Summary>,
    verifyRetries: nat,
    currentSlice: string,
    attemptsByWp: map<string, nat>,
    attemptsByPredicate: map<string, nat>,
    fixerDecision: Option<FixerDecision>)

  /** `init_state` and `init_state_from_issue` on these channels. */
  const INITIAL: State := State([], [], [], None, 0, [], [], [], [], None, 0, "", map[], map[], None)

  /** `str(id or story_id)`. */
  function ItemId(item: WorkItem): string {
    if item.id != "" then item.id else item.storyId
  }

  const COVERED := "covered"

  predicate AnyBlocking(findings: seq<ReconFinding>) {
    exists f | f in findings :: BlockingKind(f.kind)
  }

  predicate BlockingKind(kind: string) {
    kind in {"builder_blocked", "builder_no_action", "claimed_edits_not_applied", "tester_parse_failure", "fixer_blocked"}
  }
}
