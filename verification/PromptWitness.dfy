/** Two concrete prompt runs that reach what a reader might think impossible. Each drives the stages in
    the order that `PromptRun.Body` calls them in, which is written out here by hand, and each stage is
    asserted to end well before the next one starts; what the whole run guarantees is in
    `PromptRun.Run`. */
module PromptWitness {
  import opened Common
  import opened PipelineState
  import opened RepairBudget
  import opened Verdict
  import opened RunTrace
  import opened RunInvariant
  import opened PromptGates
  import opened PromptRun

  const TEST := Step("test", ["run-tests"], true)
  const PLAN := Plan(Some(TEST), None, [])
  const GOOD := Outcome(0, false, "", None, None)
  const EVIDENCE := Evidence(Planned(PLAN), true, GOOD, GOOD, n => GOOD, [])
  const BLOCKER := ReconFinding("fixer_blocked", "", "fixer")

  /** An await that ends well. Its test command succeeds, its build reports `reported`, and its fixer
      says it is blocked. */
  function Step1(updates: seq<Update>, reported: seq<TesterFinding>): Await {
    Await(updates, false, BLANK, BuildReply("", reported, [], []), EVIDENCE,
          FixerReply(FixerDecision("", ""), [BLOCKER]))
  }

  const CALM := Step1([], [])

  /** The review of the pull request, during which a human asks for `action`; then `rest`. */
  function FromReview(action: Update, rest: seq<Await>): seq<Await> {
    [Step1([action], [])] + rest
  }

  /** A build, a passing verify, a pull request. */
  function FromBuild(action: Update, rest: seq<Await>): seq<Await> {
    [CALM, CALM, CALM] + FromReview(action, rest)
  }

  /** Setup, hydration, and a plan that a human approves while it is made. */
  function Opening(action: Update, rest: seq<Await>): seq<Await> {
    [CALM, CALM, Step1([ApproveBrief("")], [])] + FromBuild(action, rest)
  }

  lemma BlockedFails(state: State, ev: Evidence)
    requires state.reconFindings == [BLOCKER]
    ensures !Passed(VerifyCycle(state, ev))
  {
    VerdictFromEvidence(state, ev);
    assert BLOCKER in state.reconFindings;
  }

  lemma GoodEvidencePasses(state: State)
    requires state == INITIAL.(currentSlice := "")
    ensures Passed(VerifyCycle(state, EVIDENCE))
  {
    VerdictFromEvidence(state, EVIDENCE);
  }

  /** Nobody heard anything. */
  lemma Unheard(slots: Slots)
    ensures Delivered([], NoGate, slots) == slots
  {}

  lemma OneHeard(u: Update, slots: Slots)
    ensures Delivered([u], NoGate, slots) == SlotsAfter(slots, Act.Note(Route(u, NoGate, slots.brief)))
  {
    assert [u][..0] == [];
  }

  /** Setup. */
  method SetUpRun(script: seq<Await>) returns (run: PromptRun)
    requires |script| >= 1 && script[0] == CALM
    ensures fresh(run) && run.Able() && run.script == script[1..] && run.state == INITIAL
    ensures run.Slotted() == EMPTY && run.pendingGate == NoGate
    ensures !run.G().briefPassed && run.G().fixes == 0 && run.G().actions == 0 && !run.G().hasPlan
    ensures run.T() == START.(setUp := true)
  {
    Unheard(EMPTY);
    assert Total(map[]) == 0;
    run := new PromptRun(script, {});
    assert run.T() == START && !run.named;
    var flow := run.Activity(Setup);
    assert flow.Go?;
  }

  /** Setup and hydration. */
  method Start(script: seq<Await>) returns (run: PromptRun)
    requires |script| >= 2 && script[0] == CALM && script[1] == CALM
    ensures fresh(run) && run.Able() && run.script == script[2..] && run.state == INITIAL
    ensures run.Slotted() == EMPTY && run.pendingGate == NoGate
    ensures !run.G().briefPassed && run.G().fixes == 0 && run.G().actions == 0 && !run.G().hasPlan
    ensures run.T().hydrated && run.T().discoveries == 0 && run.T().verifies == 0 && run.T().fixers == 0
  {
    hide TallyOf, GatesOf, GateSafe, Delivered, Passed;
    Unheard(EMPTY);
    run := SetUpRun(script);
    var flow := run.HydrateStage();
    assert flow.Go?;
  }

  method Approve(run: PromptRun, ghost rest: seq<Await>)
    requires run.Able() && run.script == [Step1([ApproveBrief("")], [])] + rest && run.state == INITIAL
    requires run.Slotted() == EMPTY && run.pendingGate == NoGate
    requires !run.G().briefPassed && run.G().fixes == 0 && run.G().actions == 0 && !run.G().hasPlan
    requires run.T().hydrated && run.T().discoveries == 0 && run.T().verifies == 0 && run.T().fixers == 0
    modifies run
    ensures run.Able() && run.script == rest && run.state == INITIAL && run.pendingGate == NoGate
    ensures run.Slotted() == EMPTY.(brief := Some(Decision(true, "")))
    ensures run.G().briefPassed && run.G().actions == 0 && run.T().verifies == 0 && run.T().fixers == 0
  {
    hide TallyOf, GatesOf, GateSafe, Delivered;
    OneHeard(ApproveBrief(""), EMPTY);
    var flow, approved := run.Discover();
    assert flow.Go? && approved;
    var again;
    flow, again := run.BriefGate();
    assert flow.Go? && !again;
  }

  method Build(run: PromptRun, ghost rest: seq<Await>)
    requires run.Able() && run.script == [CALM, CALM, CALM] + rest && run.state == INITIAL && run.pendingGate == NoGate
    requires run.G().briefPassed && run.G().actions == 0 && run.T().verifies == 0 && run.T().fixers == 0
    modifies run
    ensures run.Able() && run.script == rest && run.pendingGate == NoGate && run.Slotted() == old(run.Slotted())
    ensures run.G().briefPassed && run.state.testerFindings == [] && run.T().freshness == Verified(true)
    ensures run.T().built && run.T().proposed
  {
    hide TallyOf, GatesOf, GateSafe, Delivered, VerifyCycle;
    Unheard(run.Slotted());
    var flow := run.BuildStage(false);
    assert flow.Go?;
    GoodEvidencePasses(run.state);
    flow := run.VerifyStage();
    assert flow.Go? && Passed(run.state);
    flow := run.CreatePr();
    assert flow.Go?;
  }

  /** Drives a run to the merge gate, with the action latched. */
  method ToGate(action: Update, rest: seq<Await>) returns (run: PromptRun)
    requires action == TriggerFix("") || action == TriggerRebuild("")
    ensures fresh(run) && run.Able() && run.G().briefPassed && run.T().freshness == Reviewed(true)
    ensures run.T().built && run.T().proposed
    ensures run.script == rest && run.pendingGate == NoGate && run.state.testerFindings == []
    ensures run.mergeGate.None? && run.mergeAction == Some(if action.TriggerFix? then Fix else Rebuild)
  {
    hide PromptRun.Kept, PromptRun.Latched, PromptRun.Earned, TallyOf, GatesOf, Delivered;
    var script := Opening(action, rest);
    run := Start(script);
    Approve(run, FromBuild(action, rest));
    Build(run, FromReview(action, rest));
    OneHeard(action, run.Slotted());
    var flow := run.ReviewStage();
    assert flow.Go?;
  }

  function HeardLast(updates: seq<Update>, slots: Slots): Slots {
    var cleared := slots.(merge := None, action := None);
    if updates == [] then cleared else SlotsAfter(cleared, Act.Note(Route(updates[0], NoGate, cleared.brief)))
  }

  /** Three calm awaits, the last of which hears something. */
  lemma Three(run: PromptRun, script: seq<Await>)
    requires |script| >= 3 && run.pendingGate == NoGate
    requires script[0].updates == [] && script[1].updates == [] && |script[2].updates| <= 1
    requires !script[0].raised && !script[1].raised && !script[2].raised
    ensures Smooth(script, 3) && Rest(Rest(Rest(script))) == script[3..]
    ensures forall slots :: run.HeardInThree(script, slots) == HeardLast(script[2].updates, slots)
  {
    SmoothThree(script);
    SmoothThree(Rest(script));
    assert Rest(script)[0] == script[1] && Rest(Rest(script)) == script[2..] && script[2..][0] == script[2];
    assert Smooth(Rest(script), 2);
    forall slots: Slots ensures run.HeardInThree(script, slots) == HeardLast(script[2].updates, slots)
    {
      var cleared := slots.(merge := None, action := None);
      Unheard(cleared);
      if script[2].updates != [] {
        OneHeard(script[2].updates[0], cleared);
        assert script[2].updates == [script[2].updates[0]];
      }
    }
  }

  /** The fixer, asked by a human, is blocked; the verify after it fails; the human approves anyway
      while the reviewer looks. */
  const FIX_AND_MERGE := [CALM, CALM, Step1([ApproveMerge("")], []), CALM]

  /** The gate after the fix: the verdict failed, and an approval is latched. */
  method FixFails() returns (run: PromptRun)
    ensures fresh(run) && run.Able() && !Passed(run.state) && run.T().freshness == Reviewed(false)
    ensures run.G().actions > 0
    ensures run.G().briefPassed
    ensures run.mergeGate == Some(Decision(true, "")) && run.mergeAction.None? && run.script == [CALM]
  {
    hide PromptRun.Kept, PromptRun.Latched, PromptRun.Earned, TallyOf, GatesOf, Delivered, VerifyCycle, Passed, Smooth,
         Heard;
    run := ToGate(TriggerFix(""), FIX_AND_MERGE);
    Unheard(EMPTY.(brief := run.briefGate, revise := run.briefRevise));
    OneHeard(ApproveMerge(""), EMPTY.(brief := run.briefGate, revise := run.briefRevise));
    var flow := run.AwaitMerge();
    assert flow.Go?;
    Three(run, FIX_AND_MERGE);
    flow := run.HumanFix();
    assert flow.Go?;
    ghost var fixed: State, ev: Evidence :|
      run.state == VerifyCycle(fixed, ev) && fixed.testerFindings == [] && fixed.reconFindings == [BLOCKER];
    BlockedFails(fixed, ev);
  }

  /** A merge of code whose verdict failed. */
  method MergesOnFailedVerdict() returns (run: PromptRun, flow: Flow)
    ensures fresh(run) && flow == Stop(Finished(Merged, "")) && run.Kept()
    ensures run.T().merges == 1 && run.T().freshness == Reviewed(false) && !Passed(run.state)
  {
    hide TallyOf, GatesOf, GateSafe, Delivered, VerifyCycle, Passed;
    run := FixFails();
    flow := run.AwaitMerge();
    assert flow.Go?;
    flow := run.TakeMerge();
  }

  /** One rebuild from the gate and back, during whose review `heard` arrives. */
  method RebuildOnce(run: PromptRun, reported: seq<TesterFinding>, heard: seq<Update>, ghost rest: seq<Await>)
    requires run.Able() && run.G().briefPassed && run.mergeAction == Some(Rebuild) && run.pendingGate == NoGate
    requires run.T().built && run.T().proposed
    requires run.script == [Step1([], reported), CALM, Step1(heard, [])] + rest
    requires heard in {[], [TriggerRebuild("")]}
    modifies run
    ensures run.Able() && run.G().briefPassed && run.pendingGate == NoGate && run.script == rest
    ensures run.T().built && run.T().proposed
    ensures run.state.testerFindings == old(run.state.testerFindings) + reported
    ensures run.mergeAction == if heard == [] then None else Some(Rebuild)
  {
    hide PromptRun.Kept, PromptRun.Latched, PromptRun.Earned, TallyOf, GatesOf, Delivered, VerifyCycle, Passed,
         Smooth, Heard;
    var flow := run.AwaitMerge();
    assert flow.Go?;
    Three(run, run.script);
    assert run.script[3..] == rest;
    flow := run.HumanRebuild();
    assert flow.Go?;
  }

  const FOUND := TesterFinding("predicate_failed", "wp-1")

  /** A rebuild that reports a finding, during whose review another rebuild is asked for, which reports
      nothing. */
  function Twice(): seq<Await> {
    [Step1([], [FOUND]), CALM, Step1([TriggerRebuild("")], [])] + [Step1([], []), CALM, Step1([], [])]
  }

  /** After a rebuild that reported nothing, an older rebuild's finding is still there. */
  method KeepsStaleFinding() returns (run: PromptRun)
    ensures fresh(run) && run.Able() && run.script == []
    ensures Twice()[3].build.testerFindings == [] && run.state.testerFindings == [FOUND]
  {
    run := ToGate(TriggerRebuild(""), Twice());
    RebuildOnce(run, [FOUND], [TriggerRebuild("")], [Step1([], []), CALM, Step1([], [])]);
    RebuildOnce(run, [], [], []);
  }

  /** Nobody does anything but approve, the brief while it is planned and the merge during the review. */
  const GOOD_RUN := [CALM, CALM, Step1([ApproveBrief("")], []), CALM, CALM, CALM, Step1([ApproveMerge("")], []), CALM, CALM]

  lemma ApprovedInTime()
    ensures Needed(BriefBy(GOOD_RUN), MergeBy(GOOD_RUN)) <= |GOOD_RUN|
  {
    hide BriefBy, MergeBy;
    assert ApproveBrief("") in GOOD_RUN[2].updates && ApproveMerge("") in GOOD_RUN[6].updates;
    BriefByOne(GOOD_RUN, 2);
    MergeByOne(GOOD_RUN, 6);
  }

  lemma {:induction false} BriefByOne(script: seq<Await>, k: nat)
    requires k < |script| && exists u | u in script[k].updates :: u.ApproveBrief?
    ensures BriefBy(script) <= k + 1
  {
    if k > 0 {
      BriefByOne(script[1..], k - 1);
    }
  }

  lemma {:induction false} MergeByOne(script: seq<Await>, k: nat)
    requires k < |script| && exists u | u in script[k].updates :: u.ApproveMerge?
    ensures MergeBy(script) <= k + 1
  {
    if k > 0 {
      MergeByOne(script[1..], k - 1);
    }
  }

  lemma OneIsKind(k: nat)
    requires k < |GOOD_RUN|
    ensures KindAwait(GOOD_RUN[k]) && GOOD_RUN[k].evidence == EVIDENCE && GOOD_RUN[k].build == CALM.build
    ensures GOOD_RUN[k].plans == BLANK
  {
    assert GOOD_RUN[k] in {CALM, Step1([ApproveBrief("")], []), Step1([ApproveMerge("")], [])};
  }

  lemma AllIsWell()
    ensures GoesWell(GOOD_RUN)
  {
    hide EvidenceClean, KindAwait;
    forall a | a in GOOD_RUN ensures KindAwait(a) && a.evidence == EVIDENCE && a.build == CALM.build {
      var k :| 0 <= k < |GOOD_RUN| && GOOD_RUN[k] == a;
      OneIsKind(k);
    }
    OneIsKind(2);
    CalmIsClean();
  }

  lemma CalmIsClean()
    ensures EvidenceClean(MergeBuild(WithPlan(INITIAL, BLANK), CALM.build), EVIDENCE)
  {
    GoodEvidencePasses(MergeBuild(WithPlan(INITIAL, BLANK), CALM.build));
    VerdictFromEvidence(MergeBuild(WithPlan(INITIAL, BLANK), CALM.build), EVIDENCE);
  }

  /** A whole run, from setup to teardown, that merges. */
  method GoodRunMerges() returns (run: PromptRun, ending: Ending)
    ensures fresh(run) && ending == Finished(Merged, "") && RunTrace.Merges(run.ran) == 1
  {
    AllIsWell();
    ApprovedInTime();
    run := new PromptRun(GOOD_RUN, {});
    ending := run.Run();
  }
}
