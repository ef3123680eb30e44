/** What both run controllers keep: the repair and planning budgets, the retry counter, the safety of
    the trace. */
module RunInvariant {
  import opened Common
  import opened PipelineState
  import opened RepairBudget
  import opened Verdict
  import opened RunTrace

  const PLANNING_MAX_ATTEMPTS: nat := 5

  /** What discovery left in the state: brief packages, spec, and the critic's decision, where
      `approved` may be missing. */
  datatype Plans = Plans(briefItems: seq<WorkItem>, spec: seq<WorkItem>, decision: Option<Option<bool>>)

  datatype Status = Merged | Rejected | Canceled | Abandoned | NeedsHuman

  /** How a run stands: a result, a failure, or still waiting when the script ends. */
  datatype Ending = Finished(status: Status, reason: string) | Raised | Suspended

  datatype Flow = Go | Stop(ending: Ending) {
    predicate IsFailure() { Stop? }
    function PropagateFailure(): Flow { this }
  }

  /** `_planning_approved`: a missing decision or a missing verdict counts as approval. */
  predicate PlanningApproved(decision: Option<Option<bool>>) {
    decision.None? || decision.value.None? || decision.value.value
  }

  /** Only an explicit no refuses a plan. */
  lemma RefusedIff(decision: Option<Option<bool>>)
    ensures !PlanningApproved(decision) <==> decision == Some(Some(false))
  {}

  /** What holds of a run between any two awaits, when a human asked for `fixes` fixes and sent the
      run back to planning `replans` times. */
  ghost predicate Sound(tally: Tally, fixes: nat, replans: nat, state: State) {
    && tally.safe
    && WithinBudget(state, FIXER_MAX_ATTEMPTS + fixes)
    && tally.fixers <= Total(state.attemptsByWp)
    && state.verifyRetries == tally.failed
    && tally.discoveries <= PLANNING_MAX_ATTEMPTS * (1 + replans)
  }

  lemma VerifyCounts<N>(tally: Tally, fixes: nat, replans: nat, state: State, ev: Evidence)
    requires Sound(tally, fixes, replans, state) && tally.setUp && !tally.tornDown && tally.built
    ensures var after := VerifyCycle(state, ev);
      && after.attemptsByWp == state.attemptsByWp && after.attemptsByPredicate == state.attemptsByPredicate
      && after.spec == state.spec
      && Sound(TallyAfter(tally, Event(Act<N>.Verify(Passed(after)), true)), fixes, replans, after)
  {
    CycleIsFresh(state, ev);
  }

  /** An activity that raises counts as nothing but a call. */
  lemma RaisedIsSound<N>(tally: Tally, fixes: nat, replans: nat, state: State, passed: bool)
    requires Sound(tally, fixes, replans, state) && tally.setUp && !tally.tornDown && tally.built
    ensures Sound(TallyAfter(tally, Event(Act<N>.Verify(passed), false)), fixes, replans, state)
  {}

  /** An automatic charge: the exhaustion check let it through and no human fix happened yet. */
  lemma ChargeIsSound(tally: Tally, replans: nat, state: State)
    requires Sound(tally, 0, replans, state) && !Exhausted(state)
    ensures Sound(tally, 0, replans, ChargeFixer(state)) && tally.fixers < Total(ChargeFixer(state).attemptsByWp)
  {
    CheckedChargeKeepsBudget(state);
    ChargeFixerSpends(state);
  }

  /** A human fix charges unchecked, and raises the limit by one. */
  lemma HumanChargeIsSound(tally: Tally, fixes: nat, replans: nat, state: State)
    requires Sound(tally, fixes, replans, state)
    ensures Sound(tally, fixes + 1, replans, ChargeFixer(state))
    ensures tally.fixers < Total(ChargeFixer(state).attemptsByWp)
  {
    UncheckedChargeAddsOne(state, FIXER_MAX_ATTEMPTS + fixes);
    ChargeFixerSpends(state);
  }

  /** The build activity leaves the reconciliation findings of its own Builders and Testers out of what
      it returns: whatever they are, the state after the merge is the same. So a blocked Builder stops
      the subgraph's result from passing but not the run's state, exactly when nothing else blocks. */
  lemma BuilderReportsAreLost(state: State, reply: BuildReply, recon: seq<ReconFinding>)
    ensures MergeBuild(state, reply) == MergeBuild(state, reply.(recon := recon))
    ensures MergeBuild(state, reply).reconFindings == state.reconFindings
    ensures Blocked(Subgraph(state, reply)) && !Blocked(MergeBuild(state, reply)) <==>
      !Blocked(state) && reply.testerFindings == [] && AnyBlocking(reply.recon)
  {
    var result := Subgraph(state, reply);
    assert forall f :: f in result.reconFindings <==> f in state.reconFindings || f in reply.recon;
    assert result.testerFindings == [] <==> state.testerFindings == [] && reply.testerFindings == [];
  }

  // ---------- Only named packages are charged ----------

  /** The replies of one await name only these packages. */
  ghost predicate RepliesNamed(plans: Plans, build: BuildReply, ev: Evidence, fixer: FixerReply, names: set<string>) {
    && ItemsNamed(plans.briefItems, names) && ItemsNamed(plans.spec, names)
    && Named(build.currentSlice, names) && TestersNamed(build.testerFindings, names)
    && CoverageNamed(ev.coverage, names)
    && Named(fixer.decision.targetWp, names) && ReconNamed(fixer.recon, names)
  }

  lemma BuildKeepsNames(state: State, reply: BuildReply, names: set<string>)
    requires EvidenceNamed(state, names) && Named(reply.currentSlice, names)
    requires TestersNamed(reply.testerFindings, names)
    ensures EvidenceNamed(MergeBuild(state, reply), names)
    ensures EvidenceNamed(DropStale(state, MergeBuild(state, reply)), names)
  {
    hide Named, ItemsNamed, CoverageNamed;
    var merged := MergeBuild(state, reply);
    var kept := merged.testerFindings[|state.testerFindings|..];
    assert forall f :: f in kept ==> f in merged.testerFindings;
  }

  lemma FixerKeepsNames(state: State, reply: FixerReply, names: set<string>)
    requires EvidenceNamed(state, names) && Named(reply.decision.targetWp, names) && ReconNamed(reply.recon, names)
    ensures EvidenceNamed(MergeFixer(state, reply), names)
    ensures EvidenceNamed(DropStale(state, MergeFixer(state, reply)), names)
  {
    hide Named, ItemsNamed, CoverageNamed;
    FixerTurnDropsStale(state, reply);
  }

  lemma VerifyKeepsNames(state: State, ev: Evidence, names: set<string>)
    requires EvidenceNamed(state, names) && CoverageNamed(ev.coverage, names)
    ensures EvidenceNamed(VerifyCycle(state, ev), names)
  {
    hide Named, ItemsNamed, VerifyCycle;
    CycleCoverage(state, ev);
  }

  /** When no human asked for a fix, repairs are bounded by the packages there are to name, however long
      the run and whatever the verdicts say: at most two fixer calls per name. */
  lemma RepairsAreBounded<N>(t: seq<Event<N>>, replans: nat, state: State, names: set<string>)
    requires Sound(TallyOf(t), 0, replans, state) && EvidenceNamed(state, names)
    ensures FixerCalls(t) <= 2 * |state.attemptsByWp| && FixerCalls(t) <= 2 * |names|
  {
    TallyMeans(t);
    RepairCallsBounded(state, FixerCalls(t), names);
  }

  /** The run ended with a merge. */
  predicate Merging(flow: Flow) {
    flow.Stop? && flow.ending.Finished? && flow.ending.status.Merged?
  }

  /** The fixer said it will not do, which is why a run goes to a human. */
  predicate GivesUp(state: State, reason: string) {
    && state.fixerDecision.Some?
    && (state.fixerDecision.value.decision, reason)
       in {("needs_brief_change", "needs_brief_change"), ("cannot_fix", "fixer_cannot_fix")}
  }

  /** Some package or predicate that a charge now would name was charged twice. */
  ghost predicate UsedUp(state: State) {
    || (exists wp :: wp in ChargedWps(state) && wp in state.attemptsByWp && state.attemptsByWp[wp] >= 2)
    || (exists p :: p in ChargedPredicates(state) && p in state.attemptsByPredicate && state.attemptsByPredicate[p] >= 2)
  }

  lemma ExhaustedIff(state: State)
    ensures Exhausted(state) <==> UsedUp(state)
  {
    hide ChargedWps, ChargedPredicates;
  }

  lemma EscalationIff(state: State, reason: string)
    ensures DecisionEscalation(state) == Some(reason) <==> GivesUp(state, reason)
  {}
}
