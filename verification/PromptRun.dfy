/** The controller of a prompt run: planning, brief gate, build, verify and repair, pull request,
    review, merge gate. A script supplies, await by await, the updates delivered meanwhile and what
    the activity did, so every run and every part of a run is some script. */
module PromptRun {
  import opened Common
  import opened PipelineState
  import opened RepairBudget
  import opened Verdict
  import opened RunTrace
  import opened RunInvariant
  import opened PromptGates

  /** One await: updates handled while it lasts, whether it raised, and the reply an activity gives
      (each activity reads its own part). */
  datatype Await = Await(updates: seq<Update>, raised: bool, plans: Plans, build: BuildReply,
                         evidence: Evidence, fixer: FixerReply)

  /** How the next await ends, and the script after it. */
  function EndOf(script: seq<Await>): Flow {
    if script == [] then Stop(Suspended) else if script[0].raised then Stop(Raised) else Go
  }

  function Rest(script: seq<Await>): seq<Await> {
    if script == [] then [] else script[1..]
  }

  /** The next n awaits end well. */
  predicate Smooth(script: seq<Await>, n: nat) {
    n == 0 || (EndOf(script).Go? && Smooth(Rest(script), n - 1))
  }

  lemma SmoothThree(script: seq<Await>)
    ensures Smooth(script, 2) <==> EndOf(script).Go? && EndOf(Rest(script)).Go?
    ensures Smooth(script, 3) <==> EndOf(script).Go? && Smooth(Rest(script), 2)
  {
    assert Smooth(Rest(script), 1) <==> EndOf(Rest(script)).Go?;
  }

  /** The slots after the updates of the next await. */
  function Heard(script: seq<Await>, pending: PendingGate, slots: Slots): Slots {
    if script == [] then slots else Delivered(script[0].updates, pending, slots)
  }

  /** The replies of a script name only these packages. */
  ghost predicate ScriptNamed(script: seq<Await>, names: set<string>) {
    script == [] ||
    (RepliesNamed(script[0].plans, script[0].build, script[0].evidence, script[0].fixer, names)
     && ScriptNamed(script[1..], names))
  }

  /** What a run keeps beside the budgets: the trace's verdict is the state's, the trace explains the
      tester findings, and verifies come one by one with fixes and human actions. */
  ghost predicate Explained(tally: Tally, gates: Gates, state: State) {
    && (tally.freshness.Unchecked? || tally.freshness.passed == Passed(state))
    && state.testerFindings == gates.outstanding
    && tally.verifies <= tally.fixers + 1 + gates.actions
  }

  /** What a build leaves; a rebuild drops, by length, what was there before it. */
  function AfterBuild(state: State, reply: BuildReply, drop: bool): State {
    if drop then DropStale(state, MergeBuild(state, reply)) else MergeBuild(state, reply)
  }

  lemma BuildKeepsBudgets(state: State, reply: BuildReply, drop: bool, limit: nat)
    requires drop || state.testerFindings == []
    ensures var after := AfterBuild(state, reply, drop);
      && after.testerFindings == state.testerFindings + reply.testerFindings
      && after.attemptsByWp == state.attemptsByWp && after.verifyRetries == state.verifyRetries
      && (WithinBudget(state, limit) ==> WithinBudget(after, limit))
  {
    RebuildDropsStaleIff(state, reply);
  }

  /** What a fixer turn leaves. */
  function AfterFixer(state: State, reply: FixerReply): State {
    DropStale(state, MergeFixer(state, reply))
  }

  lemma FixerKeepsBudgets(state: State, reply: FixerReply, limit: nat)
    ensures var after := AfterFixer(state, reply);
      && after.testerFindings == [] && after.reconFindings == reply.recon
      && after.attemptsByWp == state.attemptsByWp && after.verifyRetries == state.verifyRetries
      && (WithinBudget(state, limit) ==> WithinBudget(after, limit))
  {
    FixerTurnDropsStale(state, reply);
  }

  /** The state with another plan. */
  function WithPlan(state: State, plans: Plans): State {
    state.(briefItems := plans.briefItems, spec := plans.spec)
  }

  const BLANK := Plans([], [], None)

  // ---------- A run that goes well ----------

  /** Every update approves something. */
  predicate KindUpdate(u: Update) {
    u.ApproveBrief? || u.ApproveMerge? || (u.ApproveGate? && u.decision.approved)
  }

  /** An await that ends well: whoever decides approves, the critic lets the plan through, the build reports
      nothing. */
  predicate KindAwait(a: Await) {
    !a.raised && (forall u :: u in a.updates ==> KindUpdate(u)) && PlanningApproved(a.plans.decision)
    && a.build.testerFindings == []
  }

  /** All awaits of a script end well, and the evidence is clean on the plan that the third one, the first
      planning attempt, brings. */
  ghost predicate GoesWell(script: seq<Await>) {
    && (forall a :: a in script ==> KindAwait(a))
    && (|script| > 2 ==> forall a, b :: a in script && b in script ==>
          EvidenceClean(MergeBuild(WithPlan(INITIAL, script[2].plans), b.build), a.evidence))
  }

  /** How many awaits it takes until somebody approves the brief, or the merge, by name; one more than there
      are when nobody does. */
  function BriefBy(script: seq<Await>): (n: nat)
    ensures 1 <= n <= |script| + 1
  {
    if script == [] then 1
    else if exists u | u in script[0].updates :: u.ApproveBrief? then 1
    else 1 + BriefBy(script[1..])
  }

  function MergeBy(script: seq<Await>): (n: nat)
    ensures 1 <= n <= |script| + 1
  {
    if script == [] then 1
    else if exists u | u in script[0].updates :: u.ApproveMerge? then 1
    else 1 + MergeBy(script[1..])
  }

  lemma {:induction false} ByMeans(script: seq<Await>)
    ensures BriefBy(script) <= |script| ==> exists u | u in script[BriefBy(script) - 1].updates :: u.ApproveBrief?
    ensures MergeBy(script) <= |script| ==> exists u | u in script[MergeBy(script) - 1].updates :: u.ApproveMerge?
  {
    if script != [] {
      ByMeans(script[1..]);
    }
  }

  function Max(a: int, b: int): int {
    if a < b then b else a
  }

  /** The awaits a run that goes well needs: setup, hydration and a plan; the brief's approval, if it comes
      later; build, verify, pull request and review; the merge's approval, if later; merge and teardown. */
  function Needed(briefBy: int, mergeBy: int): int {
    Max(Max(3, briefBy) + 4, mergeBy) + 2
  }

  /** Nobody has said no. */
  predicate CalmSlots(slots: Slots) {
    && slots.revise.None? && slots.action.None?
    && (slots.brief.Some? ==> slots.brief.value.approved) && (slots.merge.Some? ==> slots.merge.value.approved)
  }

  /** Approvals leave it so and are latched. */
  lemma {:induction false} KindDelivered(updates: seq<Update>, pending: PendingGate, slots: Slots)
    requires CalmSlots(slots) && forall u :: u in updates ==> KindUpdate(u)
    ensures var after := Delivered(updates, pending, slots);
      && CalmSlots(after) && (slots.brief.Some? ==> after.brief.Some?) && (slots.merge.Some? ==> after.merge.Some?)
      && ((exists u | u in updates :: u.ApproveBrief?) ==> after.brief.Some?)
      && ((exists u | u in updates :: u.ApproveMerge?) ==> after.merge.Some?)
  {
    if updates != [] {
      hide CalmSlots, KindUpdate, Route, SlotsAfter;
      var init, last := updates[..|updates| - 1], updates[|updates| - 1];
      KindDelivered(init, pending, slots);
      KindOne(last, pending, Delivered(init, pending, slots));
      assert updates == init + [last];
    }
  }

  lemma KindOne(u: Update, pending: PendingGate, slots: Slots)
    requires CalmSlots(slots) && KindUpdate(u)
    ensures var after := SlotsAfter(slots, Act.Note(Route(u, pending, slots.brief)));
      && CalmSlots(after) && (slots.brief.Some? || u.ApproveBrief? ==> after.brief.Some?)
      && (slots.merge.Some? || u.ApproveMerge? ==> after.merge.Some?)
  {}

  /** A plan in the state changes no verdict and no budget. */
  lemma PlansKeepVerdict(state: State, plans: Plans)
    ensures var after := WithPlan(state, plans);
      Passed(after) == Passed(state) && forall limit :: WithinBudget(after, limit) == WithinBudget(state, limit)
  {}

  /** Planning changes which plan there is and how many were refused, and otherwise only slots. */
  ghost predicate Steady(before: Gates, after: Gates) {
    && before.briefPassed == after.briefPassed && before.fixes == after.fixes
    && before.revises == after.revises && before.actions == after.actions && before.lastTaken == after.lastTaken
  }

  /** Deliveries change the slots and nothing the invariants count. */
  ghost predicate Unchanged(before: Gates, after: Gates) {
    Steady(before, after) && before.hasPlan == after.hasPlan && before.refused == after.refused
  }

  lemma JudgedGates(g: Gates, approved: bool)
    ensures var after := GatesAfter(g, Noted(Judged(approved)));
      Steady(g, after) && after.slots == g.slots && after.outstanding == g.outstanding && after.awaits == g.awaits
      && after.hasPlan == approved && after.refused == g.refused + if approved then 0 else 1
  {}

  lemma BuiltGates(g: Gates, reported: seq<TesterFinding>)
    ensures var after := GatesAfter(g, Noted(Built(reported)));
      Unchanged(g, after) && after.slots == g.slots && after.outstanding == g.outstanding + reported
      && after.awaits == g.awaits
  {}

  /** Repairs change how the code stands, and count themselves, and nothing else. */
  ghost predicate OnlyRepaired(before: Tally, after: Tally) {
    && before.safe == after.safe && before.setUp == after.setUp && before.hydrated == after.hydrated
    && before.built == after.built && before.proposed == after.proposed && before.tornDown == after.tornDown
    && before.triages == after.triages && before.discoveries == after.discoveries && before.merges == after.merges
  }

  /** Why the repair loop gives a run to a human: after a failed verdict because the tester called a
      predicate infeasible or, if not, because what would be charged has used its attempts up; after a fixer
      turn because the fixer gives up. */
  ghost predicate HandsOver(freshness: Freshness, state: State, reason: string) {
    match freshness
    case Verified(passed) =>
      !passed && if exists f | f in state.testerFindings :: f.kind == "infeasible_predicate"
                 then reason == "needs_brief_change" else reason == "fixer_budget_exhausted" && UsedUp(state)
    case Unchecked => GivesUp(state, reason)
    case Reviewed(_) => false
  }

  lemma VerdictHandsOver(state: State)
    ensures Infeasible(state) ==> HandsOver(Verified(false), state, "needs_brief_change")
    ensures !Infeasible(state) && Exhausted(state) ==> HandsOver(Verified(false), state, "fixer_budget_exhausted")
  {
    hide UsedUp, Exhausted;
    ExhaustedIff(state);
  }

  /** Planning changes the plan in the state and counts its attempts, and nothing else. */
  ghost predicate Replanned(before: State, after: State) {
    after == before.(briefItems := after.briefItems, spec := after.spec)
  }

  ghost predicate OnlyPlanned(before: Tally, after: Tally) {
    after == before.(discoveries := after.discoveries)
  }

  lemma Unplanned(tally: Tally, state: State)
    ensures OnlyPlanned(tally, tally) && Replanned(state, state)
  {}

  lemma StillPlanned(t0: Tally, t1: Tally, t2: Tally, s0: State, s1: State, s2: State)
    requires OnlyPlanned(t0, t1) && OnlyPlanned(t1, t2) && Replanned(s0, s1) && Replanned(s1, s2)
    ensures OnlyPlanned(t0, t2) && Replanned(s0, s2)
  {}

  /** An update only ever sets a slot. */
  lemma RouteSets(u: Update, pending: PendingGate, brief: Option<Decision>)
    ensures var note := Route(u, pending, brief); note.BriefSet? || note.ReviseSet? || note.MergeSet? || note.ActionSet?
  {}

  class PromptRun {
    var briefGate: Option<Decision>
    var briefRevise: Option<string>
    var mergeGate: Option<Decision>
    var mergeAction: Option<Action>
    var pendingGate: PendingGate
    var state: State
    var reviewDecision: Option<Option<bool>>
    var script: seq<Await>
    ghost var ran: Trace
    ghost var raised: bool
    ghost const all: seq<Await>
    ghost const kindly: bool
    ghost const names: set<string>
    ghost const named: bool

    /** `names` is any set of package names; `named` says whether the script keeps to it, `kindly` whether
        everything in it goes well. */
    constructor (script: seq<Await>, ghost names: set<string>)
      ensures this.script == script && ran == [] && state == INITIAL && Latched() && Slotted() == EMPTY
      ensures pendingGate == NoGate && this.names == names && all == script && !raised
      ensures named <==> ScriptNamed(script, names) && UNKNOWN_FIXER_TARGET in names
      ensures kindly <==> GoesWell(script)
    {
      briefGate, briefRevise, mergeGate, mergeAction := None, None, None, None;
      pendingGate, state, reviewDecision := NoGate, INITIAL, None;
      this.script, all, ran, raised := script, script, [], false;
      this.names, named := names, ScriptNamed(script, names) && UNKNOWN_FIXER_TARGET in names;
      kindly := GoesWell(script);
    }

    /** The four slots. */
    ghost function Slotted(): Slots
      reads `briefGate, `briefRevise, `mergeGate, `mergeAction
    {
      Slots(briefGate, briefRevise, mergeGate, mergeAction)
    }

    /** The trace's gate events explain the slots, and were all in order. */
    ghost predicate Synced()
      reads `briefGate, `briefRevise, `mergeGate, `mergeAction, `ran
    {
      GateSafe(ran) && G().slots == Slotted()
    }

    /** How many awaits are over. */
    ghost function Used(): int
      reads `script
    {
      |all| - |script|
    }

    /** The script is what is left of the whole one, and `raised` says whether an await that is over
        raised. */
    ghost predicate Consumed()
      reads `script, `raised
    {
      && |script| <= |all| && script == all[|all| - |script|..]
      && (raised <==> exists k :: 0 <= k < |all| - |script| && all[k].raised)
    }

    /** When all goes well nobody says no, and approvals are latched once they came. */
    ghost predicate Calm()
      reads `briefGate, `briefRevise, `mergeGate, `mergeAction, `script
    {
      kindly ==>
        && GoesWell(all) && CalmSlots(Slotted())
        && (BriefBy(all) <= Used() ==> briefGate.Some?) && (MergeBy(all) <= Used() ==> mergeGate.Some?)
    }

    ghost predicate Latched()
      reads `briefGate, `briefRevise, `mergeGate, `mergeAction, `ran, `script, `raised
    {
      Synced() && Consumed() && Calm() && Counted(0)
    }

    /** The trace accounts for every await: each is an activity or a wait at a gate. `ahead` are recorded and
        not over yet. */
    ghost predicate Counted(ahead: nat)
      reads `ran, `script
    {
      Used() + ahead == G().awaits
    }

    lemma KindNext()
      requires Consumed() && Calm() && kindly && script != []
      ensures !script[0].raised && KindAwait(script[0]) && script[0] == all[Used()] && script[0] in all
    {
      hide BriefBy, MergeBy, CalmSlots;
      assert script[0] == all[|all| - |script|];
    }

    /** After the next await of a script that goes well, what was approved by then is latched. */
    lemma KindHeard()
      requires Consumed() && Calm() && kindly && script != []
      ensures !script[0].raised
      ensures var after := Delivered(script[0].updates, pendingGate, Slotted());
        && CalmSlots(after) && (BriefBy(all) <= Used() + 1 ==> after.brief.Some?)
        && (MergeBy(all) <= Used() + 1 ==> after.merge.Some?)
    {
      hide CalmSlots, KindUpdate, PlanningApproved, EvidenceClean, BriefBy, MergeBy, Delivered;
      KindNext();
      KindDelivered(script[0].updates, pendingGate, Slotted());
      ByMeans(all);
    }

    /** The tally of the trace so far; the name is short because every contract below needs it. */
    ghost function T(): Tally
      reads `ran
    {
      TallyOf(ran)
    }

    /** Where the gates stand after the trace so far. */
    ghost function G(): Gates
      reads `ran
    {
      GatesOf(ran)
    }

    /** A script that keeps to its names charges nobody else. */
    ghost predicate Bounded()
      reads `state, `script, `raised
    {
      named ==> EvidenceNamed(state, names) && ScriptNamed(script, names)
    }

    /** What holds between any two awaits, the merge included. */
    ghost predicate Kept()
      reads `briefGate, `briefRevise, `mergeGate, `mergeAction, `ran, `state, `script, `raised
    {
      && Latched() && Sound(T(), G().fixes, G().revises, state) && T().setUp && !T().tornDown
      && Explained(T(), G(), state) && Bounded()
    }

    /** Why a run may finish as it does: merged, with the verdict and review it needs; rejected by the last
        decision a gate took, for its reason; given to a human after five refused plans, or by the repair
        loop, whose last verdict failed or whose fixer gave up. */
    ghost predicate Earned(ending: Ending)
      requires ending.Finished?
      reads `ran, `state
    {
      match ending.status
      case Merged =>
        T().merges == 1 && T().freshness == Reviewed(Passed(state))
        && (G().actions == 0 ==> Passed(state) && state.testerFindings == [])
      case Rejected => T().merges == 0 && G().lastTaken == Some(Decision(false, ending.reason))
      case NeedsHuman =>
        && T().merges == 0
        && (|| (ending.reason == "planning_retry_cap" && G().refused == PLANNING_MAX_ATTEMPTS)
            || (G().briefPassed && G().actions == 0 && HandsOver(T().freshness, state, ending.reason)))
      case _ => false
    }

    /** What every stage says truly: it suspends only at the end of the script, fails iff an await raised,
        and finishes the run only for a reason. */
    ghost predicate Honest(flow: Flow)
      reads `ran, `state, `script, `raised
    {
      && (flow == Stop(Suspended) ==> script == [])
      && (raised <==> flow == Stop(Raised))
      && (flow.Stop? && flow.ending.Finished? ==> Earned(flow.ending))
    }

    /** Running, and nothing raised so far. */
    ghost predicate Able()
      reads `briefGate, `briefRevise, `mergeGate, `mergeAction, `ran, `state, `script, `raised
    {
      Running() && !raised
    }

    /** What holds up to the merge. */
    ghost predicate Running()
      reads `briefGate, `briefRevise, `mergeGate, `mergeAction, `ran, `state, `script, `raised
    {
      Kept() && T().merges == 0
    }

    // ---------- Updates ----------

    /** The update handlers. */
    method Handle(u: Update)
      requires Synced()
      modifies this`briefGate, this`briefRevise, this`mergeGate, this`mergeAction, this`ran
      ensures Synced() && ran == old(ran) + [Noted(Route(u, pendingGate, old(briefGate)))]
      ensures Slotted() == SlotsAfter(old(Slotted()), Act.Note(Route(u, pendingGate, old(briefGate))))
      ensures T() == old(T()) && Unchanged(old(G()), G()) && G().outstanding == old(G()).outstanding
      ensures G().awaits == old(G()).awaits
    {
      hide TallyOf, GatesOf, GateSafe, Route;
      RouteSets(u, pendingGate, briefGate);
      Record(Noted(Route(u, pendingGate, briefGate)));
      Latch(u);
    }

    /** What each handler writes. */
    method Latch(u: Update)
      modifies this`briefGate, this`briefRevise, this`mergeGate, this`mergeAction
      ensures Slotted() == SlotsAfter(old(Slotted()), Act.Note(Route(u, pendingGate, old(briefGate))))
    {
      match u
      case ApproveBrief(reason) => briefGate := Some(Decision(true, reason));
      case RejectBrief(reason) => briefGate := Some(Decision(false, reason));
      case ReviseBrief(reason) => briefRevise := Some(reason);
      case ApproveMerge(reason) => mergeGate := Some(Decision(true, reason));
      case RejectMerge(reason) => mergeGate := Some(Decision(false, reason));
      case TriggerFix(_) => mergeAction := Some(Fix);
      case TriggerRebuild(_) => mergeAction := Some(Rebuild);
      case ApproveGate(decision) =>
        if pendingGate == MergePending {
          mergeGate := Some(decision);
        } else if pendingGate == BriefPending {
          briefGate := Some(decision);
        } else if briefGate == None {
          briefGate := Some(decision);
        } else {
          mergeGate := Some(decision);
        }
    }

    /** Adds one event to the trace. */
    ghost method Record(e: Event<Note>)
      requires GateSafe(ran) && GateAllows(G(), e.act)
      modifies this`ran
      ensures ran == old(ran) + [e] && GateSafe(ran)
      ensures T() == TallyAfter(old(T()), e) && G() == GatesAfter(old(G()), e)
      ensures e.act.Note? && e.ok ==> T() == old(T())
    {
      TallyOne(ran, e);
      GatesOne(ran, e);
      ran := ran + [e];
    }

    /** Updates handled during one await, in order. */
    method Deliver(updates: seq<Update>)
      requires Synced()
      modifies this`briefGate, this`briefRevise, this`mergeGate, this`mergeAction, this`ran
      ensures Synced() && Slotted() == Delivered(updates, pendingGate, old(Slotted()))
      ensures T() == old(T()) && Unchanged(old(G()), G()) && G().outstanding == old(G()).outstanding
      ensures G().awaits == old(G()).awaits
    {
      hide TallyOf, GatesOf, GateSafe;
      for n := 0 to |updates|
        invariant Synced() && Slotted() == Delivered(updates[..n], pendingGate, old(Slotted()))
        invariant T() == old(T()) && Unchanged(old(G()), G()) && G().outstanding == old(G()).outstanding
        invariant G().awaits == old(G()).awaits
      {
        assert updates[..n + 1][..n] == updates[..n];
        Handle(updates[n]);
      }
      assert updates[..|updates|] == updates;
    }

    // ---------- Awaits ----------

    /** One await is over, and what arrived meanwhile was handled. */
    method Receive() returns (flow: Flow)
      requires Synced() && Consumed() && Calm() && Counted(1) && script != []
      modifies this`briefGate, this`briefRevise, this`mergeGate, this`mergeAction, this`ran, this`script, this`raised
      ensures flow == EndOf(old(script)) && script == Rest(old(script))
      ensures raised == (old(raised) || flow == Stop(Raised))
      ensures Latched() && Slotted() == Heard(old(script), pendingGate, old(Slotted()))
      ensures T() == old(T()) && Unchanged(old(G()), G()) && G().outstanding == old(G()).outstanding
      ensures kindly ==> flow.Go?
    {
      hide TallyOf, GatesOf, GateSafe, Delivered, CalmSlots, KindUpdate, GoesWell, BriefBy, MergeBy;
      var step := script[0];
      if kindly {
        KindHeard();
      }
      Deliver(step.updates);
      script := script[1..];
      raised := raised || step.raised;
      flow := if step.raised then Stop(Raised) else Go;
    }

    /** A wait at the gate that is pending, while nothing is latched for it. */
    method Wait() returns (flow: Flow)
      requires Latched() && script != [] && GateAllows(G(), Act.Note(Waited(pendingGate)))
      modifies this`briefGate, this`briefRevise, this`mergeGate, this`mergeAction, this`ran, this`script, this`raised
      ensures flow == EndOf(old(script)) && script == Rest(old(script))
      ensures raised == (old(raised) || flow == Stop(Raised))
      ensures Latched() && Slotted() == Heard(old(script), pendingGate, old(Slotted()))
      ensures T() == old(T()) && Unchanged(old(G()), G()) && G().outstanding == old(G()).outstanding
      ensures kindly ==> flow.Go?
    {
      hide TallyOf, GatesOf, GateSafe, Consumed, Calm, Delivered;
      Record(Noted(Waited(pendingGate)));
      flow := Receive();
    }

    /** An activity: the trace records it. Without a next await in the script the run stays suspended. */
    method Activity(act: Act<Note>) returns (flow: Flow)
      requires Latched() && GateAllows(G(), act) && !act.Note?
      modifies this`briefGate, this`briefRevise, this`mergeGate, this`mergeAction, this`ran, this`script, this`raised
      ensures flow == EndOf(old(script)) && script == Rest(old(script))
      ensures raised == (old(raised) || flow == Stop(Raised))
      ensures Latched() && Slotted() == Heard(old(script), pendingGate, old(Slotted()))
      ensures T() == if flow == Stop(Suspended) then old(T()) else TallyAfter(old(T()), Event(act, flow.Go?))
      ensures Unchanged(old(G()), G())
      ensures G().outstanding == if act.Fixer? && flow.Go? then [] else old(G()).outstanding
      ensures kindly && old(script) != [] ==> flow.Go?
    {
      hide TallyOf, GatesOf, GateSafe, Consumed, Calm, Delivered;
      if script == [] {
        return Stop(Suspended);
      }
      Record(Event(act, !script[0].raised));
      flow := Receive();
    }

    /** A decision or action is consumed: a revise clears the brief slots, an action the merge slots. */
    method Consume(note: Note)
      requires Latched() && GateAllows(G(), Act.Note(note))
      requires note.Revised? || note.Acted? || note.BriefTaken? || note.MergeTaken?
      modifies this`briefGate, this`briefRevise, this`mergeGate, this`mergeAction, this`ran
      ensures Latched() && T() == old(T()) && G() == GatesAfter(old(G()), Noted(note))
    {
      hide TallyOf, GatesOf, GateSafe, Consumed, GoesWell, BriefBy, MergeBy;
      Record(Noted(note));
      if note == Revised {
        briefRevise, briefGate := None, None;
      } else if note.Acted? {
        mergeAction, mergeGate := None, None;
      }
    }

    // ---------- Planning and the brief gate ----------

    /** One planning attempt on a state without the previous plan; only an explicit no refuses it. */
    method Discover() returns (flow: Flow, approved: bool)
      requires Able() && !G().hasPlan && T().hydrated && T().discoveries < PLANNING_MAX_ATTEMPTS * (1 + G().revises)
      modifies this`briefGate, this`briefRevise, this`mergeGate, this`mergeAction, this`ran, this`script, this`raised,
               this`state, this`reviewDecision
      ensures flow == EndOf(old(script)) && script == Rest(old(script)) && Honest(flow)
      ensures kindly && old(script) != [] ==> flow.Go? && approved
      ensures Running() && Steady(old(G()), G())
      ensures G().hasPlan == approved && (approved ==> flow.Go?)
      ensures G().refused == old(G()).refused + if flow.Go? && !approved then 1 else 0
      ensures T().discoveries <= old(T()).discoveries + 1
      ensures Slotted() == Heard(old(script), pendingGate, old(Slotted()))
      ensures flow.Go? ==>
        reviewDecision == old(script)[0].plans.decision && (approved <==> reviewDecision != Some(Some(false)))
      ensures OnlyPlanned(old(T()), T())
      ensures Replanned(old(state), state)
      ensures flow.Go? ==> state == WithPlan(old(state), old(script)[0].plans)
    {
      hide Kept, Latched, TallyOf, GatesOf, Heard, EvidenceNamed, Earned;
      approved := false;
      var plans := if script == [] then BLANK else script[0].plans;
      KindPlan();
      Forget();
      flow := Explore();
      if flow.Go? {
        approved := TakePlan(plans);
      }
    }

    /** The next plan names only what the script may name. */
    lemma PlansNamed()
      requires Bounded()
      ensures named ==> EvidenceNamed(WithPlan(state, BLANK), names)
      ensures named && script != [] ==>
        EvidenceNamed(WithPlan(state, script[0].plans), names)
    {}

    /** The discovery activity. */
    method Explore() returns (flow: Flow)
      requires Able() && !G().hasPlan && T().hydrated && T().discoveries < PLANNING_MAX_ATTEMPTS * (1 + G().revises)
      modifies this`briefGate, this`briefRevise, this`mergeGate, this`mergeAction, this`ran, this`script, this`raised
      ensures flow == EndOf(old(script)) && script == Rest(old(script)) && Honest(flow)
      ensures kindly && old(script) != [] ==> flow.Go?
      ensures Running() && Unchanged(old(G()), G())
      ensures OnlyPlanned(old(T()), T()) && T().discoveries <= old(T()).discoveries + 1
      ensures Slotted() == Heard(old(script), pendingGate, old(Slotted()))
    {
      hide TallyOf, GatesOf, GateSafe, Total, Consumed, Calm, Delivered, Heard, Passed, WithinBudget, Earned,
           EvidenceNamed, RepliesNamed;
      flow := Activity(Discovery);
    }

    lemma KindPlan()
      requires Kept()
      ensures kindly && script != [] ==> PlanningApproved(script[0].plans.decision)
    {
      hide BriefBy, MergeBy, CalmSlots;
      if kindly && script != [] {
        KindNext();
      }
    }

    /** The previous plan and verdict are dropped. */
    method Forget()
      requires Able()
      modifies this`state, this`reviewDecision
      ensures Able() && state == WithPlan(old(state), BLANK)
      ensures named && script != [] ==>
        EvidenceNamed(WithPlan(state, script[0].plans), names)
    {
      hide TallyOf, GatesOf, Total, Latched, Passed, WithinBudget, EvidenceNamed, RepliesNamed;
      PlansNamed();
      PlansKeepVerdict(state, BLANK);
      state, reviewDecision := WithPlan(state, BLANK), None;
    }

    /** A plan and the critic's verdict on it are taken. */
    method TakePlan(plans: Plans) returns (approved: bool)
      requires Able() && (named ==> EvidenceNamed(WithPlan(state, plans), names))
      modifies this`ran, this`state, this`reviewDecision
      ensures Able() && T() == old(T()) && Slotted() == old(Slotted()) && reviewDecision == plans.decision
      ensures Steady(old(G()), G()) && G().hasPlan == approved
      ensures G().refused == old(G()).refused + if approved then 0 else 1
      ensures approved <==> reviewDecision != Some(Some(false))
      ensures state == WithPlan(old(state), plans)
    {
      hide TallyOf, GatesOf, GateSafe, Total, Consumed, Calm, Passed, WithinBudget, EvidenceNamed, ScriptNamed,
           GatesAfter, TallyAfter;
      approved := PlanningApproved(plans.decision);
      RefusedIff(plans.decision);
      PlansKeepVerdict(state, plans);
      JudgedGates(G(), approved);
      Record(Noted(Judged(approved)));
      state := WithPlan(state, plans);
      reviewDecision := plans.decision;
    }

    lemma CapEarned()
      requires Running() && G().refused == PLANNING_MAX_ATTEMPTS
      ensures Earned(Finished(NeedsHuman, "planning_retry_cap"))
    {}

    /** At most five attempts until the critic lets a plan through; five refusals end the run. */
    method PlanAttempts() returns (flow: Flow)
      requires Able() && !G().hasPlan && G().refused == 0 && T().hydrated
      requires T().discoveries <= PLANNING_MAX_ATTEMPTS * G().revises
      modifies this`briefGate, this`briefRevise, this`mergeGate, this`mergeAction, this`ran, this`script, this`raised,
               this`state, this`reviewDecision
      ensures flow in {Go, Stop(Finished(NeedsHuman, "planning_retry_cap")), Stop(Raised), Stop(Suspended)}
      ensures Honest(flow) && (flow.Go? <==> G().hasPlan)
      ensures flow.Stop? && flow.ending.Finished? <==> G().refused == PLANNING_MAX_ATTEMPTS
      ensures Running() && Steady(old(G()), G())
      ensures flow.Go? ==> |script| < |old(script)| && reviewDecision != Some(Some(false))
      ensures Replanned(old(state), state)
      ensures OnlyPlanned(old(T()), T())
      ensures T().discoveries <= PLANNING_MAX_ATTEMPTS * (1 + G().revises)
      ensures kindly && old(script) != [] ==> flow.Go? && |script| == |old(script)| - 1
      ensures kindly && old(script) != [] ==>
        state == WithPlan(old(state), old(script)[0].plans)
    {
      hide Kept, Latched, TallyOf, GatesOf, Heard, Earned, WithPlan, Replanned;
      Unplanned(T(), state);
      var attempt := 0;
      while true
        invariant attempt < PLANNING_MAX_ATTEMPTS && |script| <= |old(script)| && Able()
        invariant Steady(old(G()), G())
        invariant !G().hasPlan && G().refused == attempt && (attempt > 0 ==> !kindly || old(script) == [])
        invariant attempt == 0 ==> script == old(script) && state == old(state)
        invariant Replanned(old(state), state)
        invariant OnlyPlanned(old(T()), T())
        invariant T().discoveries <= PLANNING_MAX_ATTEMPTS * G().revises + attempt
        decreases PLANNING_MAX_ATTEMPTS - attempt
      {
        ghost var tally, before := T(), state;
        var approved;
        flow, approved := Discover();
        StillPlanned(old(T()), tally, T(), old(state), before, state);
        if flow.Stop? || approved {
          return;
        }
        attempt := attempt + 1;
        if attempt >= PLANNING_MAX_ATTEMPTS {
          CapEarned();
          return Stop(Finished(NeedsHuman, "planning_retry_cap"));
        }
      }
    }

    /** Waits until a brief decision or a revise is latched; goes on at once if one already is. */
    method AwaitBrief() returns (flow: Flow)
      requires Able() && G().hasPlan && !G().briefPassed
      modifies this`briefGate, this`briefRevise, this`mergeGate, this`mergeAction, this`ran, this`script, this`raised,
               this`pendingGate
      ensures flow in {Go, Stop(Raised), Stop(Suspended)} && Honest(flow)
      ensures Running() && T() == old(T()) && Unchanged(old(G()), G()) && |script| <= |old(script)|
      ensures flow.Go? ==> (briefGate.Some? || briefRevise.Some?) && pendingGate == NoGate
      ensures old(briefGate.Some? || briefRevise.Some?) ==>
        flow.Go? && script == old(script) && Slotted() == old(Slotted())
      ensures kindly && BriefBy(all) <= |all| ==> flow.Go? && Used() <= Max(old(Used()), BriefBy(all))
      ensures kindly && flow.Go? ==> briefRevise.None? && briefGate.Some? && briefGate.value.approved
    {
      hide TallyOf, GatesOf, GateSafe, Delivered, RepliesNamed, EvidenceNamed, Sound, Passed, Consumed,
           GoesWell, BriefBy, MergeBy, Earned;
      pendingGate := BriefPending;
      while briefGate == None && briefRevise == None
        invariant pendingGate == BriefPending && Able() && T() == old(T()) && Unchanged(old(G()), G())
        invariant |script| <= |old(script)|
        invariant old(briefGate.Some? || briefRevise.Some?) ==> script == old(script) && Slotted() == old(Slotted())
        invariant kindly && BriefBy(all) <= |all| ==> Used() <= Max(old(Used()), BriefBy(all))
        decreases |script|
      {
        if script == [] {
          return Stop(Suspended);
        }
        flow := Wait();
        if flow.Stop? {
          return;
        }
      }
      pendingGate := NoGate;
      flow := Go;
    }

    lemma SlotsKnown()
      requires Kept()
      ensures G().slots == Slotted()
    {}

    /** A brief decision or a revise is consumed. */
    method ConsumeBrief(note: Note)
      requires Able() && GateAllows(G(), Act.Note(note)) && (note.Revised? || note.BriefTaken?)
      modifies this`briefGate, this`briefRevise, this`mergeGate, this`mergeAction, this`ran
      ensures Able() && T() == old(T()) && G() == GatesAfter(old(G()), Noted(note))
      ensures note.BriefTaken? ==> Slotted() == old(Slotted())
    {
      hide TallyOf, GatesOf, GateSafe, WithinBudget, Total, Passed, EvidenceNamed, ScriptNamed, Consumed, Calm;
      Consume(note);
    }

    /** The brief gate: a latched revise goes first and sends the run back to planning. */
    method BriefGate() returns (flow: Flow, again: bool)
      requires Able() && !G().briefPassed && G().fixes == 0 && G().actions == 0 && G().hasPlan
      modifies this`briefGate, this`briefRevise, this`mergeGate, this`mergeAction, this`ran, this`script, this`raised,
               this`pendingGate
      ensures Running() && G().fixes == 0 && G().actions == 0 && |script| <= |old(script)| && Honest(flow)
      ensures T() == old(T()) && G().revises == old(G()).revises + if again then 1 else 0
      ensures flow.Go? && !again ==>
        G().briefPassed && G().hasPlan && G().lastTaken.Some? && G().lastTaken.value.approved
      ensures flow.Stop? ==> !again && !Merging(flow)
      ensures again ==> !G().briefPassed && !G().hasPlan && G().refused == 0
      ensures old(briefRevise.None? && briefGate.Some? && briefGate.value.approved) ==>
        flow.Go? && !again && script == old(script) && Slotted() == old(Slotted()) && pendingGate == NoGate
      ensures kindly && BriefBy(all) <= |all| ==> flow.Go? && !again && Used() <= Max(old(Used()), BriefBy(all))
    {
      hide Kept, Latched, TallyOf, GatesOf, GateSafe, BriefBy, MergeBy, HandsOver;
      again := false;
      flow := AwaitBrief();
      if flow.Stop? {
        return;
      }
      SlotsKnown();
      if briefRevise != None {
        ConsumeBrief(Revised);
        return Go, true;
      }
      var decision := briefGate.value;
      ConsumeBrief(BriefTaken(decision));
      if !decision.approved {
        flow := Stop(Finished(Rejected, decision.reason));
      }
    }

    /** Planning and gate alternate until the brief is approved. */
    method Plan() returns (flow: Flow)
      requires Able() && !G().briefPassed && G().fixes == 0 && G().actions == 0 && T().discoveries == 0
      requires !G().hasPlan && G().refused == 0 && T().hydrated
      modifies this
      ensures Running() && G().fixes == 0 && G().actions == 0 && Honest(flow)
      ensures flow.Go? ==> G().briefPassed && G().hasPlan
      ensures flow.Stop? ==> !Merging(flow)
      ensures Replanned(old(state), state)
      ensures OnlyPlanned(old(T()), T())
      ensures kindly && old(script) != [] && BriefBy(all) <= |all| ==>
        && flow.Go? && Used() <= Max(old(Used()) + 1, BriefBy(all))
        && state == WithPlan(old(state), old(script)[0].plans)
    {
      hide Kept, Latched, TallyOf, GatesOf, BriefBy, Earned, Replanned, WithPlan;
      Unplanned(T(), state);
      while true
        invariant Able() && !G().briefPassed && G().fixes == 0 && G().actions == 0
        invariant !G().hasPlan && G().refused == 0
        invariant T().discoveries <= PLANNING_MAX_ATTEMPTS * G().revises
        invariant Replanned(old(state), state)
        invariant OnlyPlanned(old(T()), T())
        invariant kindly && old(script) != [] && BriefBy(all) <= |all| ==> script == old(script) && state == old(state)
        decreases |script|
      {
        ghost var tally, before := T(), state;
        flow := PlanAttempts();
        StillPlanned(old(T()), tally, T(), old(state), before, state);
        if flow.Stop? {
          return;
        }
        var again;
        flow, again := BriefGate();
        if !again {
          return;
        }
      }
    }

    // ---------- Build, verify, repair ----------

    /** The build activity: its result is merged and, for a rebuild, what was there before it is dropped
        by length. Either way the old tester findings are still there, before the new ones. */
    method BuildStage(drop: bool) returns (flow: Flow)
      requires Able() && G().briefPassed && (drop || state.testerFindings == [])
      modifies this`briefGate, this`briefRevise, this`mergeGate, this`mergeAction, this`ran, this`script, this`raised,
               this`state
      ensures flow == EndOf(old(script)) && script == Rest(old(script)) && Honest(flow)
      ensures kindly && old(script) != [] ==> flow.Go?
      ensures Running() && Unchanged(old(G()), G())
      ensures Slotted() == Heard(old(script), pendingGate, old(Slotted()))
      ensures T() == if flow == Stop(Suspended) then old(T()) else TallyAfter(old(T()), Event(Act<Note>.Build, flow.Go?))
      ensures flow.Go? ==> state == AfterBuild(old(state), old(script)[0].build, drop)
      ensures flow.Go? ==> state.testerFindings == old(state.testerFindings) + old(script)[0].build.testerFindings
      ensures flow.Stop? ==> state == old(state)
    {
      hide TallyOf, GatesOf, GateSafe, Total, Delivered, RepliesNamed, EvidenceNamed, Passed, MergeBuild,
           DropStale, Consumed, Calm, Earned;
      var reply := if script == [] then BuildReply("", [], [], []) else script[0].build;
      BuildNames();
      flow := Activity(Build);
      if flow.Go? {
        TakeBuild(reply, drop);
      }
    }

    /** A build reply is noted and merged. */
    method TakeBuild(reply: BuildReply, drop: bool)
      requires Able() && T().freshness.Unchecked? && (drop || state.testerFindings == [])
      requires named ==> EvidenceNamed(AfterBuild(state, reply, drop), names)
      modifies this`ran, this`state
      ensures Able() && T() == old(T()) && Slotted() == old(Slotted()) && Unchanged(old(G()), G())
      ensures state == AfterBuild(old(state), reply, drop)
      ensures state.testerFindings == old(state.testerFindings) + reply.testerFindings
    {
      hide TallyOf, GatesOf, GateSafe, Total, EvidenceNamed, ScriptNamed, Passed, WithinBudget, Consumed, Calm,
           GatesAfter, TallyAfter, DropStale;
      BuiltGates(G(), reply.testerFindings);
      Record(Noted(Built(reply.testerFindings)));
      BuildKeepsBudgets(state, reply, drop, FIXER_MAX_ATTEMPTS + G().fixes);
      var merged := MergeBuild(state, reply);
      state := if drop then DropStale(state, merged) else merged;
    }

    lemma BuildNames()
      requires Bounded()
      ensures named && script != [] ==>
        && EvidenceNamed(AfterBuild(state, script[0].build, false), names)
        && EvidenceNamed(AfterBuild(state, script[0].build, true), names)
    {
      hide EvidenceNamed;
      if named && script != [] {
        BuildKeepsNames(state, script[0].build, names);
      }
    }

    /** The verify activity on cleared evidence. */
    method VerifyStage() returns (flow: Flow)
      requires Able() && T().built && T().verifies <= T().fixers + G().actions
      modifies this`briefGate, this`briefRevise, this`mergeGate, this`mergeAction, this`ran, this`script, this`raised,
               this`state
      ensures flow == EndOf(old(script)) && script == Rest(old(script)) && Honest(flow)
      ensures kindly && old(script) != [] ==> flow.Go?
      ensures Running() && Unchanged(old(G()), G())
      ensures Slotted() == Heard(old(script), pendingGate, old(Slotted()))
      ensures flow.Go? ==> state == VerifyCycle(old(state), old(script)[0].evidence)
      ensures flow.Go? ==>
        state.testerFindings == old(state.testerFindings) && state.reconFindings == old(state.reconFindings)
      ensures flow.Go? ==> T().freshness == Verified(Passed(state))
      ensures flow.Go? ==> T().verifies == old(T()).verifies + 1
      ensures T() == old(T()).(freshness := T().freshness, verifies := T().verifies, failed := T().failed)
      ensures flow.Stop? ==> state == old(state)
    {
      hide Latched, Bounded, Delivered, VerifyCycle, Passed, TallyOf, GatesOf, Sound, Earned;
      if script == [] {
        return Stop(Suspended);
      }
      var ev := script[0].evidence;
      var after := RunVerify(state, ev);
      VerifyCounts<Note>(T(), G().fixes, G().revises, state, ev);
      CycleCoverage(state, ev);
      VerifyNames();
      flow := Judge(after);
    }

    /** The verdict is recorded with the state it is about. */
    method Judge(after: State) returns (flow: Flow)
      requires Able() && T().built && T().verifies <= T().fixers + G().actions && script != []
      requires Sound(TallyAfter(T(), Event(Act<Note>.Verify(Passed(after)), true)), G().fixes, G().revises, after)
      requires after.testerFindings == state.testerFindings && (named ==> EvidenceNamed(after, names))
      modifies this`briefGate, this`briefRevise, this`mergeGate, this`mergeAction, this`ran, this`script, this`raised,
               this`state
      ensures flow == EndOf(old(script)) && script == Rest(old(script)) && Honest(flow) && (kindly ==> flow.Go?)
      ensures Running() && Unchanged(old(G()), G())
      ensures Slotted() == Heard(old(script), pendingGate, old(Slotted()))
      ensures flow.Go? ==> T().freshness == Verified(Passed(state))
      ensures flow.Go? ==> T().verifies == old(T()).verifies + 1
      ensures T() == old(T()).(freshness := T().freshness, verifies := T().verifies, failed := T().failed)
      ensures state == if flow.Go? then after else old(state)
    {
      hide TallyOf, GatesOf, GateSafe, Passed, Delivered, EvidenceNamed, RepliesNamed, Sound, Slotted,
           Consumed, Calm, Earned;
      RaisedIsSound<Note>(T(), G().fixes, G().revises, state, Passed(after));
      flow := Activity(Verify(Passed(after)));
      if flow.Go? {
        state := after;
      }
    }

    lemma VerifyNames()
      requires Bounded()
      ensures named && script != [] ==> EvidenceNamed(VerifyCycle(state, script[0].evidence), names)
    {
      hide EvidenceNamed, VerifyCycle;
      if named && script != [] {
        VerifyKeepsNames(state, script[0].evidence, names);
      }
    }

    /** A charged fixer turn: the reply is merged and what was there before it is dropped. */
    method FixerTurn() returns (flow: Flow)
      requires Able() && !T().freshness.Unchecked? && T().fixers < Total(state.attemptsByWp)
      modifies this`briefGate, this`briefRevise, this`mergeGate, this`mergeAction, this`ran, this`script, this`raised,
               this`state
      ensures flow == EndOf(old(script)) && script == Rest(old(script)) && Honest(flow)
      ensures Running() && Unchanged(old(G()), G())
      ensures Slotted() == Heard(old(script), pendingGate, old(Slotted()))
      ensures T() == if flow == Stop(Suspended) then old(T()) else TallyAfter(old(T()), Event(Act<Note>.Fixer, flow.Go?))
      ensures T() == old(T()).(freshness := T().freshness, fixers := T().fixers)
      ensures flow.Go? ==> var reply := old(script)[0].fixer;
        && state == AfterFixer(old(state), reply)
        && state.testerFindings == [] && state.reconFindings == reply.recon
      ensures flow.Stop? ==> state == old(state)
    {
      hide TallyOf, GatesOf, GateSafe, Delivered, RepliesNamed, EvidenceNamed, Total, Consumed, Calm, Earned,
           AfterFixer, WithinBudget, Passed;
      ghost var replies := script;
      var reply := if script == [] then FixerReply(FixerDecision("", ""), []) else script[0].fixer;
      flow := Activity(Fixer);
      if flow.Go? {
        FixerNames(state, replies);
        FixerKeepsBudgets(state, reply, FIXER_MAX_ATTEMPTS + G().fixes);
        state := AfterFixer(state, reply);
      }
    }

    ghost method FixerNames(before: State, replies: seq<Await>)
      requires replies != []
      ensures named && EvidenceNamed(before, names) && ScriptNamed(replies, names) ==>
        EvidenceNamed(AfterFixer(before, replies[0].fixer), names)
    {
      hide EvidenceNamed;
      if EvidenceNamed(before, names) && ScriptNamed(replies, names) {
        FixerKeepsNames(before, replies[0].fixer, names);
      }
    }

    /** A charge of the repair budget. */
    method Charge(ghost human: bool)
      requires Running() && (if human then G().fixes > 0 else G().fixes == 0 && !Exhausted(state))
      requires human ==> Sound(T(), G().fixes - 1, G().revises, state)
      modifies this`state
      ensures Running() && T().fixers < Total(state.attemptsByWp) && state == ChargeFixer(old(state))
    {
      hide TallyOf, GatesOf, GateSafe, EvidenceNamed, Charged, ChargedWps, ChargedPredicates, Exhausted,
           WithinBudget, Total, ScriptNamed, Consumed, Calm;
      if human {
        HumanChargeIsSound(T(), G().fixes - 1, G().revises, state);
      } else {
        ChargeIsSound(T(), G().revises, state);
      }
      if named {
        ChargedAreNamed(state, names);
      }
      state := RecordFixerAttempt(state);
    }

    /** One automatic repair: charge, fix, and stop when the fixer gives up. */
    method RepairTurn() returns (flow: Flow)
      requires Able() && G().briefPassed && G().fixes == 0 && G().actions == 0 && T().freshness == Verified(false)
      requires !Passed(state) && !Infeasible(state) && !Exhausted(state)
      modifies this`briefGate, this`briefRevise, this`mergeGate, this`mergeAction, this`ran, this`script, this`raised,
               this`state
      ensures Running() && Unchanged(old(G()), G()) && Honest(flow)
      ensures flow.Go? ==>
        |script| < |old(script)| && T().fixers == old(T()).fixers + 1 && T().verifies == old(T()).verifies
      ensures T() == old(T()).(freshness := T().freshness, fixers := T().fixers)
      ensures flow.Go? ==> state.testerFindings == [] && DecisionEscalation(state).None?
    {
      hide Kept, Latched, Charged, ChargedWps, ChargedPredicates, Exhausted, TallyOf, GatesOf, GivesUp;
      Charge(false);
      :- FixerTurn();
      var escalation := DecisionEscalation(state);
      if escalation.Some? {
        EscalationIff(state, escalation.value);
        return Stop(Finished(NeedsHuman, escalation.value));
      }
      flow := Go;
    }

    /** One verify, and what its verdict means for the run: it goes on, or a human is needed. */
    method VerifyTurn() returns (flow: Flow)
      requires Able() && G().briefPassed && G().fixes == 0 && T().built && T().verifies <= T().fixers
      requires G().actions == 0
      modifies this`briefGate, this`briefRevise, this`mergeGate, this`mergeAction, this`ran, this`script, this`raised,
               this`state
      ensures Running() && Unchanged(old(G()), G()) && Honest(flow)
      ensures T() == old(T()).(freshness := T().freshness, verifies := T().verifies, failed := T().failed)
      ensures flow.Go? ==> T().freshness == Verified(Passed(state)) && T().verifies == old(T()).verifies + 1
      ensures flow.Go? && Passed(state) ==> state.testerFindings == []
      ensures flow.Go? && !Passed(state) ==> !Infeasible(state) && !Exhausted(state)
      ensures flow.Go? ==> old(script) != [] && script == Rest(old(script))
      ensures kindly && old(script) != [] && EvidenceClean(old(state), old(script)[0].evidence) && !Blocked(old(state)) ==>
        flow.Go? && Passed(state)
    {
      hide Kept, Latched, TallyOf, GatesOf, Exhausted, Infeasible, HandsOver, Passed, VerifyCycle,
           EvidenceClean;
      ghost var before, ahead := state, script;
      flow := VerifyStage();
      if flow.Stop? {
        return;
      }
      VerdictFromEvidence(before, ahead[0].evidence);
      if !Passed(state) {
        VerdictHandsOver(state);
        if Infeasible(state) {
          return Stop(Finished(NeedsHuman, "needs_brief_change"));
        }
        if Exhausted(state) {
          return Stop(Finished(NeedsHuman, "fixer_budget_exhausted"));
        }
      }
    }

    /** Verify and repair until the verdict passes or a human is needed; it passes only with no tester
        finding left, and with at most one verify more than fixes. */
    method Repair() returns (flow: Flow)
      requires Able() && G().briefPassed && G().fixes == 0 && T().built && T().verifies <= T().fixers
      requires G().actions == 0
      modifies this
      ensures Running() && Unchanged(old(G()), G()) && Honest(flow)
      ensures OnlyRepaired(old(T()), T())
      ensures flow.Go? ==> T().freshness == Verified(true) && Passed(state) && state.testerFindings == []
      ensures kindly && old(script) != [] && EvidenceClean(old(state), old(script)[0].evidence) && !Blocked(old(state)) ==>
        flow.Go? && |script| == |old(script)| - 1
    {
      hide Kept, Latched, TallyOf, GatesOf, Exhausted, Infeasible, Passed, Blocked, EvidenceClean, Earned;
      while true
        invariant Able() && Unchanged(old(G()), G()) && T().verifies <= T().fixers
        invariant OnlyRepaired(old(T()), T())
        invariant kindly && old(script) != [] && EvidenceClean(old(state), old(script)[0].evidence) && !Blocked(old(state)) ==>
          script == old(script) && state == old(state)
        decreases |script|
      {
        :- VerifyTurn();
        if Passed(state) {
          return Go;
        }
        :- RepairTurn();
      }
    }

    // ---------- The merge gate ----------

    /** Waits until a merge decision or an action is latched; goes on at once if one already is. */
    method AwaitMerge() returns (flow: Flow)
      requires Able() && G().briefPassed
      modifies this`briefGate, this`briefRevise, this`mergeGate, this`mergeAction, this`ran, this`script, this`raised,
               this`pendingGate
      ensures flow in {Go, Stop(Raised), Stop(Suspended)} && Honest(flow)
      ensures Running() && T() == old(T()) && Unchanged(old(G()), G()) && |script| <= |old(script)|
      ensures flow.Go? ==> (mergeGate.Some? || mergeAction.Some?) && pendingGate == NoGate
      ensures old(mergeGate.Some? || mergeAction.Some?) ==>
        flow.Go? && script == old(script) && Slotted() == old(Slotted())
      ensures kindly && MergeBy(all) <= |all| ==> flow.Go? && Used() <= Max(old(Used()), MergeBy(all))
      ensures kindly && flow.Go? ==> mergeAction.None? && mergeGate.Some? && mergeGate.value.approved
    {
      hide TallyOf, GatesOf, GateSafe, Delivered, RepliesNamed, EvidenceNamed, Sound, Passed, Consumed,
           GoesWell, BriefBy, MergeBy, Earned;
      pendingGate := MergePending;
      while mergeGate == None && mergeAction == None
        invariant pendingGate == MergePending && Able() && T() == old(T()) && Unchanged(old(G()), G())
        invariant |script| <= |old(script)|
        invariant old(mergeGate.Some? || mergeAction.Some?) ==> script == old(script) && Slotted() == old(Slotted())
        invariant kindly && MergeBy(all) <= |all| ==> Used() <= Max(old(Used()), MergeBy(all))
        decreases |script|
      {
        if script == [] {
          return Stop(Suspended);
        }
        flow := Wait();
        if flow.Stop? {
          return;
        }
      }
      pendingGate := NoGate;
      flow := Go;
    }

    /** The reviewer judges verified code behind a pull request. */
    method ReviewStage() returns (flow: Flow)
      requires Able() && T().proposed && !T().freshness.Unchecked?
      modifies this`briefGate, this`briefRevise, this`mergeGate, this`mergeAction, this`ran, this`script, this`raised
      ensures flow == EndOf(old(script)) && script == Rest(old(script)) && Honest(flow)
      ensures kindly && old(script) != [] ==> flow.Go?
      ensures Running() && Unchanged(old(G()), G())
      ensures Slotted() == Heard(old(script), pendingGate, old(Slotted()))
      ensures flow.Go? ==> T().freshness == Reviewed(old(T()).freshness.passed)
      ensures T() == old(T()).(freshness := T().freshness)
    {
      hide TallyOf, GatesOf, GateSafe, WithinBudget, Total, EvidenceNamed, Delivered, Consumed, Calm, Earned;
      flow := Activity(Reviewer);
    }

    /** Verify and review the code a human action changed, whatever the verdict is. */
    method Recheck() returns (flow: Flow)
      requires Able() && T().built && T().proposed && T().verifies <= T().fixers + G().actions
      modifies this`briefGate, this`briefRevise, this`mergeGate, this`mergeAction, this`ran, this`script, this`raised,
               this`state
      ensures Running() && Unchanged(old(G()), G()) && Honest(flow)
      ensures T() == old(T()).(freshness := T().freshness, verifies := T().verifies, failed := T().failed)
      ensures flow in {Go, Stop(Raised), Stop(Suspended)} && (flow.Go? <==> Smooth(old(script), 2))
      ensures flow.Go? ==> script == Rest(Rest(old(script))) && T().freshness == Reviewed(Passed(state))
      ensures flow.Go? ==>
        Slotted() == Heard(Rest(old(script)), pendingGate, Heard(old(script), pendingGate, old(Slotted())))
      ensures flow.Go? ==> state == VerifyCycle(old(state), old(script)[0].evidence)
      ensures state.testerFindings == old(state.testerFindings) && state.reconFindings == old(state.reconFindings)
    {
      hide Kept, Latched, T, G, VerifyCycle, Heard, Passed, Earned;
      SmoothThree(script);
      flow := VerifyStage();
      if flow.Stop? {
        return;
      }
      flow := ReviewStage();
    }

    /** The slots after the next three awaits, once an action was consumed. */
    ghost function HeardInThree(script: seq<Await>, slots: Slots): Slots
      reads `pendingGate
    {
      var cleared := slots.(merge := None, action := None);
      var first := Heard(script, pendingGate, cleared);
      Heard(Rest(Rest(script)), pendingGate, Heard(Rest(script), pendingGate, first))
    }

    /** A human fix: charged without asking, fixed, verified and reviewed, whatever the verdict is. */
    method HumanFix() returns (flow: Flow)
      requires Able() && T().built && T().proposed && G().briefPassed && mergeAction == Some(Fix)
      requires !T().freshness.Unchecked?
      modifies this`briefGate, this`briefRevise, this`mergeGate, this`mergeAction, this`ran, this`script, this`raised,
               this`state
      ensures Running() && G().briefPassed && G().actions == old(G()).actions + 1
      ensures flow in {Go, Stop(Raised), Stop(Suspended)} && (flow.Go? <==> Smooth(old(script), 3))
      ensures flow.Go? ==> script == Rest(Rest(Rest(old(script)))) && T().freshness == Reviewed(Passed(state))
      ensures flow.Go? ==> Slotted() == HeardInThree(old(script), old(Slotted()))
      ensures flow.Go? ==> state.testerFindings == [] && state.reconFindings == old(script)[0].fixer.recon
      ensures flow.Go? ==> exists fixed: State, ev: Evidence ::
        && state == VerifyCycle(fixed, ev) && fixed.testerFindings == []
        && fixed.reconFindings == old(script)[0].fixer.recon
      ensures Honest(flow) && T().built && T().proposed
    {
      hide TallyOf, GatesOf, GateSafe, VerifyCycle, Heard, Passed, EvidenceNamed, ScriptNamed, WithinBudget,
           Total, ChargeFixer, Consumed, Calm, Earned;
      SmoothThree(script);
      BeginFix();
      :- FixerTurn();
      flow := Recheck();
    }

    /** Consumes the fix and charges it. */
    method BeginFix()
      requires Able() && mergeAction == Some(Fix)
      modifies this`briefGate, this`briefRevise, this`mergeGate, this`mergeAction, this`ran, this`state
      ensures Able() && T() == old(T()) && G() == GatesAfter(old(G()), Noted(Acted(Fix)))
      ensures Slotted() == old(Slotted()).(merge := None, action := None)
      ensures state == ChargeFixer(old(state)) && T().fixers < Total(state.attemptsByWp)
    {
      hide TallyOf, GatesOf, GateSafe, EvidenceNamed, ScriptNamed, Total, ChargeFixer, Passed, Consumed, GoesWell,
           BriefBy, MergeBy;
      Consume(Acted(Fix));
      Charge(true);
    }

    /** A human rebuild: what it reports comes on top of the tester findings that were there. */
    method HumanRebuild() returns (flow: Flow)
      requires Able() && T().built && T().proposed && G().briefPassed && mergeAction == Some(Rebuild)
      modifies this`briefGate, this`briefRevise, this`mergeGate, this`mergeAction, this`ran, this`script, this`raised,
               this`state
      ensures Running() && G().briefPassed && G().actions == old(G()).actions + 1
      ensures flow in {Go, Stop(Raised), Stop(Suspended)} && (flow.Go? <==> Smooth(old(script), 3))
      ensures flow.Go? ==> script == Rest(Rest(Rest(old(script)))) && T().freshness == Reviewed(Passed(state))
      ensures flow.Go? ==> Slotted() == HeardInThree(old(script), old(Slotted()))
      ensures flow.Go? ==> state.testerFindings == old(state.testerFindings) + old(script)[0].build.testerFindings
      ensures Honest(flow) && T().built && T().proposed
    {
      hide TallyOf, GatesOf, GateSafe, VerifyCycle, Heard, Passed, EvidenceNamed, ScriptNamed, WithinBudget,
           Total, Consumed, GoesWell, BriefBy, MergeBy, Earned;
      SmoothThree(script);
      Consume(Acted(Rebuild));
      :- BuildStage(true);
      flow := Recheck();
    }

    /** With no action latched the decision is taken: merge or reject. */
    method TakeMerge() returns (flow: Flow)
      requires Able() && T().freshness == Reviewed(Passed(state)) && mergeAction.None? && mergeGate.Some?
      requires G().actions == 0 ==> Passed(state) && state.testerFindings == []
      modifies this`briefGate, this`briefRevise, this`mergeGate, this`mergeAction, this`ran, this`script, this`raised
      ensures flow == if !old(mergeGate).value.approved then Stop(Finished(Rejected, old(mergeGate).value.reason))
                      else if EndOf(old(script)).Go? then Stop(Finished(Merged, "")) else EndOf(old(script))
      ensures Kept() && T().freshness == old(T()).freshness && G().actions == old(G()).actions && Honest(flow)
      ensures script == if old(mergeGate).value.approved then Rest(old(script)) else old(script)
      ensures kindly && old(script) != [] ==> flow == Stop(Finished(Merged, ""))
    {
      hide TallyOf, GatesOf, GateSafe, EvidenceNamed, ScriptNamed, WithinBudget, Total, Passed, Heard, Consumed,
           GoesWell, BriefBy, MergeBy, HandsOver, Delivered;
      var decision := mergeGate.value;
      Consume(MergeTaken(decision));
      if !decision.approved {
        return Stop(Finished(Rejected, decision.reason));
      }
      flow := Merge();
    }

    /** The merge itself, right after its approval. */
    method Merge() returns (flow: Flow)
      requires Able() && T().freshness == Reviewed(Passed(state)) && G().mergeApproved
      requires G().actions == 0 ==> Passed(state) && state.testerFindings == []
      modifies this`briefGate, this`briefRevise, this`mergeGate, this`mergeAction, this`ran, this`script, this`raised
      ensures flow == if EndOf(old(script)).Go? then Stop(Finished(Merged, "")) else EndOf(old(script))
      ensures Kept() && T().freshness == old(T()).freshness && G().actions == old(G()).actions && Honest(flow)
      ensures script == Rest(old(script))
      ensures kindly && old(script) != [] ==> flow == Stop(Finished(Merged, ""))
    {
      hide TallyOf, GatesOf, GateSafe, EvidenceNamed, WithinBudget, Total, Passed, Heard, Consumed, Calm,
           HandsOver;
      flow := Activity(MergeBranch);
      if flow.Go? {
        flow := Stop(Finished(Merged, ""));
      }
    }

    /** The merge gate: a latched fix or rebuild goes first and comes back to the gate. */
    method MergeGate() returns (flow: Flow)
      requires Able() && G().briefPassed && T().freshness == Reviewed(true) && Passed(state)
      requires state.testerFindings == []
      requires T().built && T().proposed
      modifies this
      ensures flow.Stop? && Kept() && Honest(flow)
      ensures kindly && Max(old(Used()), MergeBy(all)) < |all| ==>
        flow == Stop(Finished(Merged, "")) && Used() <= Max(old(Used()), MergeBy(all)) + 1
    {
      hide TallyOf, GatesOf, GateSafe, EvidenceNamed, ScriptNamed, Sound, Passed, Heard, VerifyCycle, Smooth,
           Latched, Earned;
      while true
        invariant Able() && G().briefPassed && T().freshness == Reviewed(Passed(state)) && T().built && T().proposed
        invariant G().actions == 0 ==> Passed(state) && state.testerFindings == []
        invariant kindly ==> script == old(script)
        decreases |script|
      {
        :- AwaitMerge();
        assert mergeAction.Some? ==> mergeAction.value.Fix? || mergeAction.value.Rebuild?;
        ghost var ahead := script;
        if mergeAction == Some(Fix) {
          :- HumanFix();
          SmoothShrinks(ahead);
        } else if mergeAction == Some(Rebuild) {
          :- HumanRebuild();
          SmoothShrinks(ahead);
        } else {
          flow := TakeMerge();
          return;
        }
      }
    }

    // ---------- The run ----------

    /** The pull request activity, on passing code. */
    method CreatePr() returns (flow: Flow)
      requires Able() && T().freshness == Verified(true)
      modifies this`briefGate, this`briefRevise, this`mergeGate, this`mergeAction, this`ran, this`script, this`raised
      ensures flow == EndOf(old(script)) && script == Rest(old(script)) && Honest(flow)
      ensures kindly && old(script) != [] ==> flow.Go?
      ensures Running() && Unchanged(old(G()), G())
      ensures Slotted() == Heard(old(script), pendingGate, old(Slotted()))
      ensures T() == if flow.Go? then old(T()).(proposed := true) else old(T())
    {
      hide TallyOf, GatesOf, GateSafe, EvidenceNamed, WithinBudget, Total, Passed, Heard, Consumed, Calm,
           Earned;
      flow := Activity(PrCreator);
    }

    /** A pull request is opened on passing code, then reviewed. */
    method OpenPr() returns (flow: Flow)
      requires Able() && T().freshness == Verified(true)
      modifies this`briefGate, this`briefRevise, this`mergeGate, this`mergeAction, this`ran, this`script, this`raised
      ensures flow in {Go, Stop(Raised), Stop(Suspended)} && Running() && Unchanged(old(G()), G()) && Honest(flow)
      ensures flow.Go? ==> T() == old(T()).(freshness := Reviewed(true), proposed := true)
      ensures kindly && |old(script)| > 1 ==> flow.Go? && |script| == |old(script)| - 2
    {
      hide Kept, Latched, TallyOf, GatesOf, Heard, Earned;
      flow := CreatePr();
      if flow.Stop? {
        return;
      }
      flow := ReviewStage();
    }

    /** From the approved brief to reviewed code behind a pull request. */
    method BuildAndReview() returns (flow: Flow)
      requires Able() && G().briefPassed && G().fixes == 0 && G().actions == 0
      requires state.testerFindings == [] && T().verifies <= T().fixers
      modifies this
      ensures Running() && G().briefPassed && Honest(flow)
      ensures flow.Go? ==> T().freshness == Reviewed(true) && Passed(state) && state.testerFindings == []
      ensures flow.Go? ==> T().built && T().proposed
      ensures kindly && |all| > 2 && old(state) == WithPlan(INITIAL, all[2].plans) && |old(script)| > 3 ==>
        flow.Go? && |script| == |old(script)| - 4
    {
      hide Kept, Latched, TallyOf, GatesOf, Passed, Heard, EvidenceClean, MergeBuild, Blocked, Earned;
      BuildGoesWell();
      flow := BuildStage(false);
      if flow.Stop? {
        return;
      }
      :- Repair();
      flow := OpenPr();
    }

    /** In a script that goes well the build blocks nothing and the next verify finds its evidence clean. */
    lemma BuildGoesWell()
      requires Kept()
      ensures kindly && |all| > 2 && state == WithPlan(INITIAL, all[2].plans) && |script| > 1 ==>
        var after := AfterBuild(state, script[0].build, false);
        !Blocked(after) && EvidenceClean(after, Rest(script)[0].evidence)
    {
      hide EvidenceClean, BriefBy, MergeBy, CalmSlots, KindUpdate, PlanningApproved, Sound, Explained, Bounded, Synced;
      if kindly && |all| > 2 && |script| > 1 {
        KindNext();
        assert Rest(script)[0] == all[|all| - |script| + 1];
      }
    }

    /** The repository is made ready for planning. */
    method HydrateStage() returns (flow: Flow)
      requires Able()
      modifies this`briefGate, this`briefRevise, this`mergeGate, this`mergeAction, this`ran, this`script, this`raised
      ensures flow == EndOf(old(script)) && script == Rest(old(script)) && Honest(flow)
      ensures kindly && old(script) != [] ==> flow.Go?
      ensures Running() && Unchanged(old(G()), G()) && Slotted() == Heard(old(script), pendingGate, old(Slotted()))
      ensures T() == if flow.Go? then old(T()).(hydrated := true) else old(T())
    {
      hide TallyOf, GatesOf, GateSafe, EvidenceNamed, WithinBudget, Total, Passed, Heard, Consumed, Calm, Earned;
      flow := Activity(Hydrate);
    }

    /** Everything between setup and teardown. */
    method Body() returns (flow: Flow)
      requires Able() && !G().briefPassed && G().fixes == 0 && G().actions == 0 && !G().hasPlan && G().refused == 0
      requires T().discoveries == 0 && state == INITIAL && T().verifies <= T().fixers && Used() == 1
      modifies this
      ensures flow.Stop? && Kept() && Honest(flow)
      ensures kindly && Needed(BriefBy(all), MergeBy(all)) <= |all| ==>
        flow == Stop(Finished(Merged, "")) && script != []
    {
      hide Kept, Latched, TallyOf, GatesOf, Passed, BriefBy, MergeBy, Earned, WithPlan;
      flow := HydrateStage();
      if flow.Stop? {
        return;
      }
      SecondNext();
      :- Plan();
      :- BuildAndReview();
      flow := MergeGate();
    }

    lemma SecondNext()
      requires Kept() && Used() == 2
      ensures script != [] ==> script[0] == all[2]
    {}

    /** What holds wherever the script ends. */
    ghost predicate Concluded(ending: Ending)
      reads `briefGate, `briefRevise, `mergeGate, `mergeAction, `ran, `state, `script, `raised
    {
      && Latched() && Sound(T(), G().fixes, G().revises, state) && Explained(T(), G(), state) && Bounded()
      && (ending.Suspended? ==> script == [] && !T().tornDown)
      && (!ending.Suspended? ==> (T().tornDown <==> T().setUp))
      && (ending.Finished? ==> T().tornDown && Earned(ending) && !raised)
      && (ending.Raised? ==> raised)
    }

    lemma StartIsSound()
      requires ran == [] && state == INITIAL
      ensures T() == START && Sound(T(), 0, 0, state) && Passed(state) == Passed(INITIAL)
      ensures G() == Gates(EMPTY, false, false, 0, 0, 0, [], false, 0, None, 0)
    {
      assert Total(map[]) == 0;
    }

    /** Setup, and only when it succeeded the body and the teardown. */
    method SetUpAndRun() returns (ending: Ending)
      requires ran == [] && state == INITIAL && Latched() && Bounded() && !raised && Used() == 0
      modifies this
      ensures Concluded(ending)
      ensures kindly && Needed(BriefBy(all), MergeBy(all)) <= |all| ==> ending == Finished(Merged, "")
    {
      hide EvidenceNamed, Delivered, Consumed, Calm, BriefBy, MergeBy, HandsOver, GoesWell, RepliesNamed,
           Earned, TallyOf, GatesOf, GateSafe;
      StartIsSound();
      var flow := Activity(Setup);
      if flow.Stop? {
        return flow.ending;
      }
      flow := Body();
      if flow.ending.Suspended? {
        return Suspended;
      }
      ending := TearDown(flow.ending);
    }

    /** The teardown follows whatever the body came to; its own failure fails the run. */
    method TearDown(result: Ending) returns (ending: Ending)
      requires !result.Suspended? && Kept() && Honest(Stop(result))
      modifies this`briefGate, this`briefRevise, this`mergeGate, this`mergeAction, this`ran, this`script, this`raised
      ensures Concluded(ending)
      ensures kindly && old(script) != [] ==> ending == result
    {
      hide TallyOf, GatesOf, GateSafe, EvidenceNamed, WithinBudget, Total, Passed, Heard, Consumed, Calm,
           HandsOver;
      var down := Activity(Teardown);
      ending := if down.Stop? then down.ending else result;
    }

    /** A whole run, or the part of it the script covers. Whatever updates arrive when, the trace is
        safe, the gates decided in order, the budgets held, the trace explains the tester findings and
        the verdict, and teardown ends what setup began. Every await is an activity of the trace or a
        wait at a gate with nothing latched for it. Every ending has its reason: the run suspends only at
        the end of the script, fails only if an await raised, is rejected by the last decision taken, and
        is given to a human after five refused plans or by the repair loop. And when everybody approves
        and all goes well, it merges. */
    method Run() returns (ending: Ending)
      requires ran == [] && state == INITIAL && Latched() && script == all && !raised
      requires named <==> ScriptNamed(script, names) && UNKNOWN_FIXER_TARGET in names
      requires kindly <==> GoesWell(script)
      modifies this
      ensures Safe(ran) && GateSafe(ran)
      ensures WithinBudget(state, FIXER_MAX_ATTEMPTS + Fixes(ran)) && FixerCalls(ran) <= Total(state.attemptsByWp)
      ensures named && Fixes(ran) == 0 ==> FixerCalls(ran) <= 2 * |names|
      ensures Verifies(ran) <= FixerCalls(ran) + 1 + Actions(ran)
      ensures state.verifyRetries == FailedVerifies(ran)
      ensures state.testerFindings == Outstanding(ran)
      ensures Discoveries(ran) <= PLANNING_MAX_ATTEMPTS * (1 + Revises(ran))
      ensures ending.Suspended? ==> script == [] && !TornDown(ran)
      ensures !ending.Suspended? ==> (TornDown(ran) <==> SetUp(ran))
      ensures ending.Finished? ==> TornDown(ran) && Merges(ran) == if ending.status.Merged? then 1 else 0
      ensures ending.Finished? && ending.status.Merged? ==> Fresh(ran) == Reviewed(Passed(state))
      ensures ending.Finished? && ending.status.Merged? && Actions(ran) == 0 ==> Passed(state)
      ensures ending.Finished? ==> ending.status in {Merged, Rejected, NeedsHuman}
      ensures ending.Finished? && ending.status.Rejected? ==> LastTaken(ran) == Some(Decision(false, ending.reason))
      ensures ending.Finished? && ending.status.NeedsHuman? ==>
        || (ending.reason == "planning_retry_cap" && RefusedPlans(ran) == 5)
        || (BriefPassed(ran) && Actions(ran) == 0 && HandsOver(Fresh(ran), state, ending.reason))
      ensures |script| <= |all| && script == all[|all| - |script|..] && Awaits(ran) == |all| - |script|
      ensures ending.Raised? ==> exists k :: 0 <= k < |all| - |script| && all[k].raised
      ensures ending.Finished? ==> forall k :: 0 <= k < |all| - |script| ==> !all[k].raised
      ensures GoesWell(all) && Needed(BriefBy(all), MergeBy(all)) <= |all| ==> ending == Finished(Merged, "")
    {
      hide EvidenceNamed, ScriptNamed, BriefBy, MergeBy, HandsOver, GoesWell, Calm, WithinBudget, Total,
           Needed, Passed, Safe, SlotsOf, BriefPassed, Fixes, Revises, Actions, Outstanding, HasPlan,
           RefusedPlans, LastTaken, Awaits, SetUp, TornDown, Fresh, FixerCalls, Discoveries, Merges, Verifies,
           FailedVerifies, GateSafe;
      if named {
        StartNamed(names);
      }
      ending := SetUpAndRun();
      TallyMeans(ran);
      if named && Fixes(ran) == 0 {
        RepairsAreBounded(ran, Revises(ran), state, names);
      }
    }
  }

  lemma StartNamed(names: set<string>)
    requires UNKNOWN_FIXER_TARGET in names
    ensures EvidenceNamed(INITIAL, names)
  {}

  lemma SmoothShrinks(script: seq<Await>)
    ensures Smooth(script, 3) ==> |Rest(Rest(Rest(script)))| < |script|
  {}
}
