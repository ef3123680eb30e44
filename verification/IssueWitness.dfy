/** Concrete issue runs that reach what a reader might think impossible. Each drives the stages in the
    order that `IssueRun.Body` calls them in, which is written out here by hand, and each stage is
    asserted to end well before the next one starts; what the whole run guarantees is in
    `IssueRun.Run`. */
module IssueWitness {
  import opened Common
  import opened PipelineState
  import opened RepairBudget
  import opened Verdict
  import opened RunTrace
  import opened RunInvariant
  import opened IssueComments
  import opened IssueLabels
  import opened IssueGates
  import opened IssueRun

  const TEST := Step("test", ["run-tests"], true)
  const GOOD := Outcome(0, false, "", None, None)
  const EVIDENCE := Evidence(PlannerReply.Planned(Plan(Some(TEST), None, [])), true, GOOD, GOOD, n => GOOD, [])

  /** An await that ends well: triage is content, the critic answers `verdict`, a build reports
      `reported`, and a verify finds the tests passing. */
  function Turn(arrivals: seq<Arrival>, verdict: Option<bool>, reported: seq<TesterFinding>): Await {
    Await(arrivals, false, true, [], true, Plans([], [], Some(verdict)), BuildReply("", reported, [], []), EVIDENCE,
          FixerReply(FixerDecision("", ""), []))
  }

  const CALM := Turn([], Some(true), [])
  const REFUSED := Turn([], Some(false), [])

  /** So many awaits that end well and bring nothing, then others. */
  function Calms(n: nat, tail: seq<Await>): seq<Await> {
    if n == 0 then tail else [CALM] + Calms(n - 1, tail)
  }

  lemma NoCalm(tail: seq<Await>)
    ensures Calms(0, tail) == tail
  {}

  lemma CalmPlan(n: nat, tail: seq<Await>)
    requires n > 0
    ensures Calms(n, tail) != [] && PlanningApproved(Calms(n, tail)[0].plans.decision)
  {}

  lemma CalmStep(n: nat, tail: seq<Await>)
    requires n > 0
    ensures var script := Calms(n, tail);
      && script != [] && EndOf(script).Go? && Rest(script) == Calms(n - 1, tail) && script[0].ready
      && script[0].comments == [] && Told(script) == []
      && forall slot :: Heard(script, slot) == slot
  {}

  /** An await that brings one thing. */
  lemma OneStep(a: Await, tail: seq<Await>)
    requires !a.raised && |a.arrivals| == 1
    ensures var script := [a] + tail;
      && EndOf(script).Go? && Rest(script) == tail && Told(script) == Said1(a.arrivals[0])
      && forall slot :: Heard(script, slot) == Decided1(a.arrivals[0], slot)
  {
    assert a.arrivals[..|a.arrivals| - 1] == [];
    assert ToldIn(a.arrivals[..|a.arrivals| - 1]) == [] && ToldIn(a.arrivals) == [] + Said1(a.arrivals[0]);
    forall slot ensures SignalAfter(a.arrivals, slot) == Decided1(a.arrivals[0], slot) {
      assert SignalAfter(a.arrivals[..|a.arrivals| - 1], slot) == slot;
    }
  }

  function Said1(arrival: Arrival): seq<Comment> {
    match arrival
    case Decided(_) => []
    case Posted(comments) => HumanComments(comments)
  }

  function Decided1(arrival: Arrival, slot: Option<Signal>): Option<Signal> {
    match arrival
    case Decided(u) => Some(SignalOf(u))
    case Posted(_) => slot
  }

  /** Planning turns whose plan the critic refuses, then others. */
  function Refusals(n: nat, tail: seq<Await>): seq<Await> {
    if n == 0 then tail else [REFUSED, REFUSED] + Refusals(n - 1, tail)
  }

  lemma RefusalStep(n: nat, tail: seq<Await>)
    requires n > 0
    ensures var script := Refusals(n, tail);
      && EndOf(script).Go? && EndOf(Rest(script)).Go? && Rest(script) != []
      && !PlanningApproved(Rest(script)[0].plans.decision) && Rest(Rest(script)) == Refusals(n - 1, tail)
  {
    assert Refusals(n, tail)[1..] == [REFUSED] + Refusals(n - 1, tail);
  }

  lemma {:induction false} RefusalsReject(n: nat, tail: seq<Await>)
    ensures Rejects(Refusals(n, tail), n) && AfterTurns(Refusals(n, tail), n) == tail
  {
    hide EndOf, Rest;
    if n > 0 {
      RefusalsReject(n - 1, tail);
      RefusalStep(n, tail);
    }
  }

  // ---------- Stages shared by the runs ----------

  /** A run on an issue without comments that shows exactly the ready label. */
  method Blank(script: seq<Await>, render: Plans -> string) returns (run: IssueRun)
    ensures fresh(run) && run.Fresh() && run.Bounded() && run.InStep(Ready) && run.tidy && run.approvalSignal == None
    ensures run.script == script && run.newComments == []
  {
    hide Dedup, HumanComments;
    assert StateLabels({Ready}) == {Ready};
    run := new IssueRun(script, render, {Ready}, true, {});
    NotNamed(run);
  }

  lemma NotNamed(run: IssueRun)
    requires !run.named
    ensures run.Bounded()
  {}

  /** Setup and hydration. */
  method Start(n: nat, tail: seq<Await>, render: Plans -> string) returns (run: IssueRun)
    requires n > 1
    ensures fresh(run) && run.Unstarted() && !run.raised && run.InStep(Ready) && run.tidy && run.approvalSignal == None
    ensures run.script == Calms(n - 2, tail) && run.newComments == [] && run.issueComments == [] && run.state == INITIAL
    ensures run.T().hydrated
  {
    hide IssueRun.Base, IssueRun.Stopped, IssueRun.T, IssueRun.Bounded, IssueRun.Latched, TallyOf, GatesOf, Calms, EndOf,
         Rest, Heard, Told, Shows;
    CalmStep(n, tail);
    CalmStep(n - 1, tail);
    run := Blank(Calms(n, tail), render);
    var flow := run.SetUpStage();
    assert flow.Go?;
    flow := run.HydrateStage();
    assert flow.Go?;
  }

  /** The label and the report that say triage begins. */
  method Begun(run: IssueRun, ghost n: nat, ghost tail: seq<Await>)
    requires run.Unstarted() && !run.raised && run.InStep(Ready) && run.approvalSignal == None && run.newComments == []
    requires n > 1 && run.script == Calms(n, tail) && run.T().hydrated
    modifies run`approvalSignal, run`ran, run`newComments, run`script, run`raised, run`labels, run`edits,
             run`currentLabel
    ensures run.Unstarted() && !run.raised && run.InStep(Triaging) && run.approvalSignal == None
    ensures run.newComments == []
    ensures run.script == Calms(n - 2, tail) && run.T().hydrated
  {
    hide IssueRun.Base, IssueRun.Stopped, IssueRun.T, TallyOf, GatesOf, Calms, EndOf, Rest, Heard, Told, Shows;
    CalmStep(n, tail);
    CalmStep(n - 1, tail);
    var flow := run.MoveLabel(Ready, {Ready}, Triaging);
    assert flow.Go?;
    flow := run.Phase();
    assert flow.Go?;
  }

  /** Triage that needs no clarification; `now` is what is said meanwhile. */
  method Triaged(run: IssueRun, ghost now: seq<Comment>, ghost n: nat, ghost tail: seq<Await>)
    requires run.Unstarted() && !run.raised && run.InStep(Triaging) && run.approvalSignal == None
    requires run.newComments == []
    requires n > 0 && EndOf(run.script).Go? && Rest(run.script) == Calms(n, tail) && Told(run.script) == now
    requires run.T().hydrated && run.script != [] && run.script[0].ready && Heard(run.script, None) == None
    modifies run`approvalSignal, run`ran, run`newComments, run`script, run`raised
    ensures run.Planning() && !run.raised && run.T().discoveries == 0 && run.G().lastDesign.None?
    ensures run.InStep(Triaging)
    ensures run.script == Calms(n - 1, tail) && run.approvalSignal == None && run.newComments == now
    ensures !run.G().hasPlan && run.G().refused == 0
  {
    hide IssueRun.Base, IssueRun.Stopped, TallyOf, GatesOf, Calms, EndOf, Rest, Heard, Told, Shows;
    CalmStep(n, tail);
    var flow, ready := run.TriageStage();
    assert flow.Go? && ready;
    flow := run.Phase();
    assert flow.Go?;
  }

  /** The label says that planning begins. */
  method ToDesign(run: IssueRun, ghost n: nat, ghost tail: seq<Await>)
    requires run.Planning() && !run.raised && run.T().discoveries == 0 && run.G().lastDesign.None?
    requires run.InStep(Triaging)
    requires n > 0 && run.script == Calms(n, tail) && !run.G().hasPlan && run.G().refused == 0
    modifies run`approvalSignal, run`ran, run`newComments, run`script, run`raised, run`labels, run`edits,
             run`currentLabel
    ensures run.Planning() && !run.raised && run.T().discoveries == 0 && run.G().lastDesign.None?
    ensures run.InStep(Designing)
    ensures run.script == Calms(n - 1, tail) && run.newComments == old(run.newComments)
    ensures !run.G().hasPlan && run.G().refused == 0
  {
    hide IssueRun.Base, IssueRun.Stopped, IssueRun.T, TallyOf, GatesOf, Calms, EndOf, Rest, Heard, Told, Shows;
    CalmStep(n, tail);
    var flow := run.MoveLabel(Triaging, {Triaging}, Designing);
    assert flow.Go?;
  }

  /** The plan is shown, and the gate hears a decision. */
  method ShowPlan(run: IssueRun, ghost u: Update, ghost tail: seq<Await>)
    requires run.Planning() && !run.raised && run.PlanInState() && run.T().discoveries <= 1 && run.G().lastDesign.None?
    requires run.G().hasPlan && run.InStep(Designing)
    requires run.script == Calms(2, [Turn([Decided(u)], Some(true), [])] + tail)
    modifies run`approvalSignal, run`ran, run`newComments, run`script, run`raised, run`labels, run`edits,
             run`currentLabel
    ensures run.Planning() && !run.raised && run.PlanInState() && run.InStep(AwaitingApproval)
    ensures run.G().open == Some(Design)
    ensures run.approvalSignal == Some(SignalOf(u)) && run.script == tail && run.T().discoveries <= 1
    ensures run.G().hasPlan && Undrained(old(run.G()), run.G())
  {
    hide IssueRun.Base, IssueRun.Stopped, IssueRun.T, TallyOf, GatesOf, Calms, EndOf, Rest, Heard, Told, Shows, Quiet,
         Undrained;
    ghost var gate := [Turn([Decided(u)], Some(true), [])] + tail;
    CalmStep(2, gate);
    CalmStep(1, gate);
    NoCalm(gate);
    OneStep(Turn([Decided(u)], Some(true), []), tail);
    var flow := run.OpenDesign();
    assert flow.Go?;
    OpeningMeans(old(run.G()), run.G(), Design);
    OpeningKeeps(old(run.G()), run.G(), Design);
  }

  // ---------- Two labels ----------

  /** The gate hears a fix signal; then the critic refuses until the cap. */
  function Asked(): seq<Await> {
    [Turn([Decided(TriggerFix(""))], Some(true), [])] + Capped()
  }

  function Capped(): seq<Await> {
    Refusals(5, Calms(2, []))
  }

  /** A plan the critic approves. */
  method ApprovedTurn(run: IssueRun)
    requires run.Planning() && !run.raised && run.T().discoveries == 0 && run.G().lastDesign.None?
    requires run.InStep(Designing)
    requires run.script == Calms(4, Asked()) && !run.G().hasPlan && run.G().refused == 0
    modifies run`approvalSignal, run`ran, run`newComments, run`script, run`raised, run`state, run`plans
    ensures run.Planning() && !run.raised && run.PlanInState() && run.T().discoveries <= 1 && run.G().lastDesign.None?
    ensures run.G().hasPlan && run.InStep(Designing) && run.script == Calms(2, Asked())
  {
    hide IssueRun.Base, IssueRun.Stopped, IssueRun.T, TallyOf, GatesOf, Calms, Shows;
    CalmStep(4, Asked());
    CalmStep(3, Asked());
    CalmPlan(3, Asked());
    var flow, approved := run.PlanTurn();
    assert flow.Go? && approved;
  }

  /** The gate takes the fix signal and plans again, under its own label. */
  method Sidetrack(run: IssueRun)
    requires run.Planning() && !run.raised && run.T().discoveries == 0 && run.G().lastDesign.None?
    requires run.InStep(Designing)
    requires run.script == Calms(4, Asked()) && !run.G().hasPlan && run.G().refused == 0
    modifies run
    ensures run.Planning() && !run.raised && run.InStep(run.PlanningLabel()) && StrayLast(run.G())
    ensures run.script == Capped()
    ensures run.T().discoveries <= PLANNING_MAX_ATTEMPTS * run.G().replans && !run.G().hasPlan && run.G().refused == 0
  {
    hide IssueRun.Base, IssueRun.Stopped, IssueRun.T, TallyOf, GatesOf, Calms, Shows, Capped;
    ApprovedTurn(run);
    ShowPlan(run, TriggerFix(""), Capped());
    var flow, again := run.DecideDesign();
    assert flow.Go? && again;
  }

  /** Triage that nobody disturbs. */
  method ReachesDesign(render: Plans -> string) returns (run: IssueRun)
    ensures fresh(run) && run.Planning() && !run.raised && run.T().discoveries == 0 && run.G().lastDesign.None?
    ensures run.InStep(Designing)
    ensures run.script == Calms(4, Asked()) && run.tidy && !run.G().hasPlan && run.G().refused == 0
  {
    hide IssueRun.Base, IssueRun.Stopped, IssueRun.T, GatesOf, Calms, EndOf, Rest, Heard, Told, Shows;
    run := Start(11, Asked(), render);
    Begun(run, 9, Asked());
    CalmStep(7, Asked());
    Triaged(run, [], 6, Asked());
    ToDesign(run, 5, Asked());
  }

  /** The critic refuses until the cap, under the gate's label. */
  method HitsCap(run: IssueRun) returns (flow: Flow)
    requires run.Planning() && !run.raised && run.InStep(run.PlanningLabel()) && StrayLast(run.G())
    requires run.script == Capped() && !run.G().hasPlan && run.G().refused == 0
    requires run.T().discoveries <= PLANNING_MAX_ATTEMPTS * run.G().replans
    modifies run
    ensures flow == Stop(Finished(NeedsHuman, "planning_retry_cap")) && run.Stopped(flow) && StrayLast(run.G())
  {
    hide IssueRun.Base, IssueRun.Stopped, TallyOf, GatesOf, Calms, EndOf, Rest, Heard, Told, Shows, Rejects,
         AfterTurns, Refusals, Drafted;
    RefusalsReject(5, Calms(2, []));
    CalmStep(2, []);
    CalmStep(1, []);
    var approved;
    flow, approved := run.PlanningLoop();
    assert flow.Go? && !approved;
    DraftedMeans(old(run.G()), run.G());
    flow := run.CapReached();
  }

  /** A fix signal at the design gate, then a planning cap: the gate's label stays on beside the final
      one. */
  method LeavesTwoLabels(render: Plans -> string) returns (run: IssueRun, flow: Flow)
    ensures fresh(run) && flow == Stop(Finished(NeedsHuman, "planning_retry_cap"))
    ensures run.tidy && StateLabels(run.labels) == {AwaitingApproval, NeedsHumanLabel}
  {
    hide IssueRun.Base, IssueRun.Earned, TallyOf, GatesOf, Calms, Shows, Capped;
    run := ReachesDesign(render);
    Sidetrack(run);
    flow := HitsCap(run);
  }

  // ---------- A comment lost, a cancel lost, a run blocked for good ----------

  const COMMENT := Comment(NumericId(7), "ann", None)
  const CANCEL := SignalApproval(Signal(Kind.Cancel, "stop"))
  const FOUND := TesterFinding("predicate_failed", "wp-1")

  /** The comment is posted while triage, which accepts the issue, still looks at it. */
  function Unheard(): seq<Await> {
    [Turn([Posted([COMMENT])], Some(true), [])] + Calms(3, Overruled())
  }

  /** A cancel comes in while planning, an approval when the gate waits. */
  function Overruled(): seq<Await> {
    [Turn([Decided(CANCEL)], Some(true), [])] + Calms(2, Approved())
  }

  function Approved(): seq<Await> {
    [Turn([Decided(ApproveBrief(""))], Some(true), [])] + Calms(3, Reporting())
  }

  /** The first build reports a tester finding; then its report, a label swap, a verify. */
  function Reporting(): seq<Await> {
    [Turn([], Some(true), [FOUND])] + Calms(4, [])
  }

  lemma CommentIsHuman()
    ensures HumanComments([COMMENT]) == [COMMENT]
  {
    assert !IsMarker(COMMENT);
  }

  /** A human comment on an issue that triage accepts is never stored. */
  method LosesComment(render: Plans -> string) returns (run: IssueRun)
    ensures fresh(run) && run.Planning() && !run.raised && run.T().discoveries == 0 && run.G().lastDesign.None?
    ensures run.InStep(Designing)
    ensures run.newComments == run.G().talk.queue == [COMMENT] && run.issueComments == [] && run.state == INITIAL
    ensures run.script == Calms(1, Overruled()) && !run.G().hasPlan && run.G().refused == 0
  {
    hide IssueRun.Base, IssueRun.Stopped, IssueRun.T, TallyOf, GatesOf, Calms, EndOf, Rest, Heard, Told, Shows,
         HumanComments, Overruled, IssueRun.InStep;
    run := Start(4, Unheard(), render);
    Begun(run, 2, Unheard());
    NoCalm(Unheard());
    OneStep(Turn([Posted([COMMENT])], Some(true), []), Calms(3, Overruled()));
    CommentIsHuman();
    Triaged(run, [COMMENT], 3, Overruled());
    ToDesign(run, 2, Overruled());
    QueueIs(run);
  }

  /** A plan, while the cancel comes in. */
  method PlanUnderCancel(run: IssueRun)
    requires run.Planning() && !run.raised && run.T().discoveries == 0 && run.G().lastDesign.None?
    requires run.InStep(Designing)
    requires run.script == Calms(1, Overruled()) && run.state == INITIAL && !run.G().hasPlan && run.G().refused == 0
    modifies run`approvalSignal, run`ran, run`newComments, run`script, run`raised, run`state, run`plans
    ensures run.Planning() && !run.raised && run.PlanInState() && run.T().discoveries <= 1 && run.G().lastDesign.None?
    ensures run.InStep(Designing) && run.script == Calms(2, Approved()) && run.CancelRequested() && run.state == INITIAL
    ensures run.G().hasPlan && Undrained(old(run.G()), run.G())
  {
    hide IssueRun.Base, IssueRun.Stopped, IssueRun.T, TallyOf, GatesOf, Calms, Shows, EndOf, Rest, Heard, Told, Approved;
    CalmStep(1, Overruled());
    NoCalm(Overruled());
    OneStep(Turn([Decided(CANCEL)], Some(true), []), Calms(2, Approved()));
    var flow, approved := run.PlanTurn();
    assert flow.Go? && approved;
  }

  /** The approved design goes to the build, whose check finds no cancel. */
  method ToBuild(run: IssueRun)
    requires run.Underway() && !run.raised && run.InStep(AwaitingApproval) && !run.G().built
    requires run.approvalSignal == Some(Signal(Approve, ""))
    requires run.script == Calms(2, Reporting()) && run.T().verifies == 0 && run.G().fixes == 0
    modifies run`approvalSignal, run`ran, run`newComments, run`script, run`raised, run`labels, run`edits,
             run`currentLabel
    ensures run.Underway() && !run.raised && run.InStep(Label.Building) && !run.CancelRequested()
    ensures run.script == Reporting()
    ensures run.T().verifies == 0 && run.G().fixes == 0 && Undrained(old(run.G()), run.G())
  {
    hide IssueRun.Base, IssueRun.Stopped, IssueRun.T, TallyOf, GatesOf, Calms, EndOf, Rest, Heard, Told, Shows,
         IssueRun.Settled, Reporting;
    CalmStep(2, Reporting());
    CalmStep(1, Reporting());
    NoCalm(Reporting());
    var flow := run.Relabel(AwaitingApproval, {AwaitingApproval, ApprovedMark}, Label.Building);
    assert flow.Go?;
    flow := run.Report(Label.Building);
    assert flow.Go?;
    CheckBuild(run);
  }

  /** The check before the first build. */
  method CheckBuild(run: IssueRun)
    requires run.Underway() && !run.raised && !run.G().built && !run.CancelRequested()
    modifies run`approvalSignal, run`ran
    ensures run.Underway() && !run.raised && !run.CancelRequested() && run.T() == old(run.T())
    ensures run.G().fixes == old(run.G()).fixes
    ensures run.approvalSignal == old(run.approvalSignal) && Undrained(old(run.G()), run.G())
  {
    hide IssueRun.Base, IssueRun.T, GatesOf;
    var cancel := run.CheckCancel();
    assert !cancel;
  }

  /** The gate opens on a latched cancel, hears an approval, and passes the design. */
  method Overrule(run: IssueRun)
    requires run.Planning() && !run.raised && run.PlanInState() && run.T().discoveries <= 1 && run.G().lastDesign.None?
    requires run.G().hasPlan && run.InStep(Designing) && run.script == Calms(2, Approved()) && run.CancelRequested()
    modifies run`approvalSignal, run`ran, run`newComments, run`script, run`raised, run`labels, run`edits,
             run`currentLabel,
             run`latestSpecRev, run`markerPosted, run`approvedSpecRev, run`approvedSpecMarkdown
    ensures run.Underway() && !run.raised && run.InStep(AwaitingApproval) && !run.G().built
    ensures run.approvalSignal == Some(Signal(Approve, ""))
    ensures run.script == Calms(2, Reporting()) && run.T().verifies == 0 && run.G().fixes == 0
    ensures Undrained(old(run.G()), run.G())
  {
    hide IssueRun.Base, IssueRun.Stopped, IssueRun.T, TallyOf, GatesOf, Calms, EndOf, Rest, Heard, Told, Shows,
         IssueRun.Settled, Reporting, IssueRun.Unbuilt;
    ShowPlan(run, ApproveBrief(""), Calms(3, Reporting()));
    CalmStep(3, Reporting());
    var flow, again := run.DecideDesign();
    assert flow.Go? && !again;
  }

  /** A cancel that came in during planning is forgotten: the run goes on to the build. */
  method LosesCancel(render: Plans -> string) returns (run: IssueRun, ghost canceled: bool)
    ensures fresh(run) && canceled && run.Underway() && !run.raised && run.InStep(Label.Building)
    ensures !run.CancelRequested()
    ensures run.script == Reporting() && run.T().verifies == 0 && run.G().fixes == 0 && run.state == INITIAL
    ensures COMMENT in run.newComments && run.issueComments == []
  {
    hide IssueRun.Base, IssueRun.Stopped, IssueRun.T, GatesOf, Calms, Shows, IssueRun.Settled, Overruled, Approved,
         Reporting, IssueRun.Unbuilt, IssueRun.InStep;
    run := LosesComment(render);
    PlanUnderCancel(run);
    canceled := run.CancelRequested();
    Overrule(run);
    ToBuild(run);
    QueueIs(run);
    assert run.G().talk.queue[0] == COMMENT;
  }

  lemma QueueIs(run: IssueRun)
    requires run.Base()
    ensures run.newComments == run.G().talk.queue
  {}

  /** The state after the first build. */
  function AfterReport(): State {
    MergeBuild(INITIAL, BuildReply("", [FOUND], [], []))
  }

  /** The first build, which reports a finding. */
  method BuildReports(run: IssueRun)
    requires run.Underway() && !run.raised && run.InStep(Label.Building) && !run.CancelRequested()
    requires run.script == Reporting()
    requires run.T().verifies == 0 && run.state == INITIAL
    modifies run`approvalSignal, run`ran, run`newComments, run`script, run`raised, run`state
    ensures run.Underway() && !run.raised && run.InStep(Label.Building) && run.script == Calms(4, [])
    ensures run.T().verifies == 0 && run.T().built && run.G().blocked && run.state == AfterReport()
  {
    hide IssueRun.Base, IssueRun.Stopped, TallyOf, GatesOf, Calms, Heard, Told, Shows, IssueRun.Settled, MergeBuild;
    var flow := run.BuildStage(Label.Building);
    assert flow.Go?;
  }

  /** The build's report and the label that says the run verifies. */
  method ToVerify(run: IssueRun)
    requires run.Underway() && !run.raised && run.InStep(Label.Building) && run.script == Calms(4, [])
    requires run.T().verifies == 0 && run.T().built && run.G().blocked
    modifies run`approvalSignal, run`ran, run`newComments, run`script, run`raised, run`labels, run`edits,
             run`currentLabel
    ensures run.Underway() && !run.raised && run.InStep(Verifying) && run.script == Calms(1, [])
    ensures run.T().verifies == 0 && run.T().built && run.G().blocked
  {
    hide IssueRun.Base, IssueRun.Stopped, IssueRun.T, GatesOf, Calms, EndOf, Rest, Heard, Told, Shows, IssueRun.Settled;
    CalmStep(4, []);
    CalmStep(3, []);
    CalmStep(2, []);
    var flow := run.Report(Label.Building);
    assert flow.Go?;
    flow := run.Relabel(Label.Building, {Label.Building}, Verifying);
    assert flow.Go?;
    flow := run.Report(Verifying);
    assert flow.Go?;
  }

  /** The verify of a run that a build once blocked fails, although all its evidence is good. */
  method FailsOnGoodEvidence(render: Plans -> string) returns (run: IssueRun)
    ensures fresh(run) && run.Underway() && !run.raised && run.InStep(Verifying) && run.G().blocked
    ensures EvidenceClean(AfterReport(), EVIDENCE) && run.state == VerifyCycle(AfterReport(), EVIDENCE)
    ensures !Passed(run.state)
  {
    hide IssueRun.Base, IssueRun.Stopped, GatesOf, TallyOf, Calms, Heard, Told, Shows, IssueRun.Settled, Reporting,
         VerifyCycle, Passed, EvidenceClean, AfterReport;
    ghost var canceled;
    run, canceled := LosesCancel(render);
    BuildReports(run);
    ToVerify(run);
    GoodEvidence(run.script);
    var flow := run.VerifyStage(Verifying);
    assert flow.Go?;
  }

  lemma GoodEvidence(script: seq<Await>)
    requires script == Calms(1, [])
    ensures EndOf(script).Go? && script != [] && script[0].evidence == EVIDENCE
    ensures EvidenceClean(AfterReport(), EVIDENCE)
  {
    var state := AfterReport();
    assert AllKeys(state.briefItems + state.spec) == [] && Expected(state) == [] && state.coverageEntries == [];
  }

  // ---------- A run that merges ----------

  const APPROVAL := Turn([Decided(ApproveBrief(""))], Some(true), [])

  /** Nobody does anything but approve: the design when the gate waits, and the merge. */
  function GoodRun(): seq<Await> {
    Calms(11, Reviewed())
  }

  function Reviewed(): seq<Await> {
    [APPROVAL] + Calms(17, Concluded())
  }

  function Concluded(): seq<Await> {
    [APPROVAL] + Calms(7, [])
  }

  lemma {:induction false} CalmSlice(n: nat, k: nat, tail: seq<Await>)
    requires k <= n
    ensures var script := Calms(n, tail);
      |script| == n + |tail| && script[k..] == Calms(n - k, tail) && (k < n ==> script[k] == CALM)
  {
    if n > 0 {
      var script, rest := Calms(n, tail), Calms(n - 1, tail);
      assert script == [CALM] + rest;
      if k > 0 {
        CalmSlice(n - 1, k - 1, tail);
        assert script[k..] == rest[k - 1..];
      } else {
        CalmSlice(n - 1, 0, tail);
        assert script[0..] == script;
      }
    }
  }

  lemma {:induction false} CalmAwaits(n: nat, tail: seq<Await>, a: Await)
    requires a in Calms(n, tail)
    ensures a == CALM || a in tail
  {
    if n > 0 {
      if a != CALM {
        CalmAwaits(n - 1, tail, a);
      }
    }
  }

  lemma ApprovedAtOnce(tail: seq<Await>)
    ensures DecidedBy([APPROVAL] + tail) == 1 && Approves(Decision([APPROVAL] + tail))
  {
    OneStep(APPROVAL, tail);
    DecisionStep([APPROVAL] + tail);
    assert Heard([APPROVAL] + tail, None) == Decided1(APPROVAL.arrivals[0], None);
  }

  lemma NobodyCancels()
    ensures Peaceful(GoodRun())
  {
    hide Calms;
    forall a | a in GoodRun() ensures a == CALM || a == APPROVAL {
      CalmAwaits(11, Reviewed(), a);
      if a != CALM && a != APPROVAL {
        CalmAwaits(17, Concluded(), a);
        CalmAwaits(7, [], a);
      }
    }
  }

  lemma CalmBuilds()
    ensures BuildsWell(WithPlan(INITIAL, CALM.plans), CALM.build, CALM.evidence)
  {
    var state := MergeBuild(WithPlan(INITIAL, CALM.plans), CALM.build);
    assert AllKeys(state.briefItems + state.spec) == [] && Expected(state) == [] && state.coverageEntries == [];
  }

  /** What is said where. */
  lemma AllIsWell()
    ensures GoesWell(GoodRun())
  {
    hide Calms, BuildsWell, Decision, DecidedBy;
    var script := GoodRun();
    CalmSlice(11, 4, Reviewed());
    CalmSlice(11, 8, Reviewed());
    CalmSlice(11, 11, Reviewed());
    NoCalm(Reviewed());
    CalmSlice(17, 3, Concluded());
    CalmSlice(17, 7, Concluded());
    CalmSlice(17, 17, Concluded());
    NoCalm(Concluded());
    CalmSlice(7, 7, []);
    ApprovedAtOnce(Calms(17, Concluded()));
    ApprovedAtOnce(Calms(7, []));
    CalmBuilds();
    assert script[11..] == Reviewed() && DesignBy(script) == 12;
    assert script[12..] == Calms(17, Concluded());
    assert script[15] == script[12..][3] && script[19] == script[12..][7];
    assert script[29..] == script[12..][17..];
  }

  /** A whole run, from setup to teardown, that merges. */
  method GoodRunMerges(render: Plans -> string) returns (run: IssueRun, ending: Ending)
    ensures fresh(run) && ending == Finished(Status.Merged, "") && Merges(run.ran) == 1
  {
    hide GoodRun, Peaceful, GoesWell, IssueRun.Latched, IssueRun.Bounded, ScriptNamed;
    NobodyCancels();
    AllIsWell();
    run := Blank(GoodRun(), render);
    ending := run.Run();
  }
}
