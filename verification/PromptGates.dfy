/** The human gates of a prompt run: which update lands in which slot, when a slot is consumed, and
    what a consumed decision proves about the updates delivered. */
module PromptGates {
  import opened Common
  import opened PipelineState
  import opened RunTrace

  datatype Decision = Decision(approved: bool, reason: string)

  /** The update methods of the workflow. */
  datatype Update =
    | ApproveBrief(reason: string) | RejectBrief(reason: string) | ReviseBrief(reason: string)
    | ApproveMerge(reason: string) | RejectMerge(reason: string)
    | TriggerFix(reason: string) | TriggerRebuild(reason: string)
    | ApproveGate(decision: Decision)

  datatype PendingGate = NoGate | BriefPending | MergePending

  datatype Action = Fix | Rebuild

  /** What a run's trace notes: where each update landed, what was consumed, whether the critic let a plan
      through, each wait at a gate, and which tester findings a build that ended well reported. */
  datatype Note =
    | BriefSet(decision: Decision) | ReviseSet(reason: string)
    | MergeSet(decision: Decision) | ActionSet(action: Action)
    | BriefTaken(decision: Decision) | Revised
    | MergeTaken(decision: Decision) | Acted(action: Action)
    | Judged(approved: bool)
    | Waited(gate: PendingGate)
    | Built(reported: seq<TesterFinding>)

  type Trace = seq<Event<Note>>

  function Noted(note: Note): Event<Note> {
    Event(Act.Note(note), true)
  }

  /** Where an update lands; the old alias goes to whichever gate is waiting. */
  function Route(u: Update, pending: PendingGate, brief: Option<Decision>): (note: Note)
    ensures note.BriefSet? || note.MergeSet? ==>
      (note.decision.approved <==> u.ApproveBrief? || u.ApproveMerge? || (u.ApproveGate? && u.decision.approved))
    ensures note.BriefSet? ==> u.ApproveBrief? || u.RejectBrief? || u.ApproveGate?
    ensures note.MergeSet? ==> u.ApproveMerge? || u.RejectMerge? || u.ApproveGate?
    ensures note.ReviseSet? <==> u.ReviseBrief?
    ensures note.ActionSet? <==> u.TriggerFix? || u.TriggerRebuild?
    ensures note.ActionSet? ==> (note.action.Fix? <==> u.TriggerFix?)
  {
    match u
    case ApproveBrief(reason) => BriefSet(Decision(true, reason))
    case RejectBrief(reason) => BriefSet(Decision(false, reason))
    case ReviseBrief(reason) => ReviseSet(reason)
    case ApproveMerge(reason) => MergeSet(Decision(true, reason))
    case RejectMerge(reason) => MergeSet(Decision(false, reason))
    case TriggerFix(_) => ActionSet(Fix)
    case TriggerRebuild(_) => ActionSet(Rebuild)
    case ApproveGate(decision) =>
      if pending.MergePending? then MergeSet(decision)
      else if pending.BriefPending? || brief.None? then BriefSet(decision)
      else MergeSet(decision)
  }

  /** The latched decisions. */
  datatype Slots = Slots(brief: Option<Decision>, revise: Option<string>,
                         merge: Option<Decision>, action: Option<Action>)

  const EMPTY := Slots(None, None, None, None)

  function SlotsAfter(slots: Slots, act: Act<Note>): Slots {
    if !act.Note? then slots
    else match act.note
      case BriefSet(decision) => slots.(brief := Some(decision))
      case ReviseSet(reason) => slots.(revise := Some(reason))
      case MergeSet(decision) => slots.(merge := Some(decision))
      case ActionSet(action) => slots.(action := Some(action))
      case Revised => slots.(brief := None, revise := None)
      case Acted(_) => slots.(merge := None, action := None)
      case BriefTaken(_) | MergeTaken(_) | Judged(_) | Waited(_) | Built(_) => slots
  }

  function SlotsOf(t: Trace): Slots {
    if t == [] then EMPTY else SlotsAfter(SlotsOf(t[..|t| - 1]), t[|t| - 1].act)
  }

  predicate IsNote(e: Event<Note>, note: Note) {
    e.act.Note? && e.act.note == note
  }

  predicate ApprovesBrief(e: Event<Note>) {
    e.act.Note? && e.act.note.BriefTaken? && e.act.note.decision.approved
  }

  predicate ApprovesMerge(e: Event<Note>) {
    e.act.Note? && e.act.note.MergeTaken? && e.act.note.decision.approved
  }

  /** The brief gate was passed. */
  predicate BriefPassed(t: Trace) {
    t != [] && (ApprovesBrief(t[|t| - 1]) || BriefPassed(t[..|t| - 1]))
  }

  /** Human fixes and rebuilds, and revises, consumed so far. */
  function Fixes(t: Trace): nat {
    if t == [] then 0 else Fixes(t[..|t| - 1]) + if IsNote(t[|t| - 1], Acted(Fix)) then 1 else 0
  }

  function Revises(t: Trace): nat {
    if t == [] then 0 else Revises(t[..|t| - 1]) + if IsNote(t[|t| - 1], Revised) then 1 else 0
  }

  /** Human actions of both kinds consumed so far. */
  function Actions(t: Trace): nat {
    if t == [] then 0 else Actions(t[..|t| - 1]) + if IsAction(t[|t| - 1]) then 1 else 0
  }

  predicate IsAction(e: Event<Note>) {
    e.act.Note? && e.act.note.Acted?
  }

  /** The critic let the last plan through, and no revise was consumed since. */
  predicate HasPlan(t: Trace) {
    t != [] && HasPlanAfter(HasPlan(t[..|t| - 1]), t[|t| - 1])
  }

  predicate HasPlanAfter(before: bool, e: Event<Note>) {
    if e.act.Note? && e.act.note.Judged? then e.act.note.approved else before && !IsNote(e, Revised)
  }

  /** Plans the critic refused since the last revise was consumed. */
  function RefusedPlans(t: Trace): nat {
    if t == [] then 0 else RefusedAfter(RefusedPlans(t[..|t| - 1]), t[|t| - 1])
  }

  function RefusedAfter(before: nat, e: Event<Note>): nat {
    if IsNote(e, Revised) then 0 else before + if IsNote(e, Judged(false)) then 1 else 0
  }

  /** Awaits: the activities, and the waits at a gate. */
  function Awaits(t: Trace): nat {
    if t == [] then 0 else Awaits(t[..|t| - 1]) + if IsAwait(t[|t| - 1]) then 1 else 0
  }

  predicate IsAwait(e: Event<Note>) {
    !e.act.Note? || e.act.note.Waited?
  }

  /** The last decision that a gate took. */
  function LastTaken(t: Trace): Option<Decision> {
    if t == [] then None else TakenAfter(LastTaken(t[..|t| - 1]), t[|t| - 1])
  }

  function TakenAfter(before: Option<Decision>, e: Event<Note>): Option<Decision> {
    if e.act.Note? && (e.act.note.BriefTaken? || e.act.note.MergeTaken?) then Some(e.act.note.decision) else before
  }

  /** Tester findings reported by builds since the last fixer turn that ended well. */
  function OutstandingAfter(outstanding: seq<TesterFinding>, e: Event<Note>): seq<TesterFinding> {
    if e.act.Fixer? && e.ok then []
    else if e.act.Note? && e.act.note.Built? then outstanding + e.act.note.reported
    else outstanding
  }

  function Outstanding(t: Trace): seq<TesterFinding> {
    if t == [] then [] else OutstandingAfter(Outstanding(t[..|t| - 1]), t[|t| - 1])
  }

  /** The slots after the updates of one await, handled in order. */
  function Delivered(updates: seq<Update>, pending: PendingGate, slots: Slots): Slots {
    if updates == [] then slots
    else
      var before := Delivered(updates[..|updates| - 1], pending, slots);
      SlotsAfter(before, Act.Note(Route(updates[|updates| - 1], pending, before.brief)))
  }

  /** What the gates must hold when the next event happens. */
  datatype Gates = Gates(slots: Slots, briefPassed: bool, mergeApproved: bool, fixes: nat, revises: nat, actions: nat,
                         outstanding: seq<TesterFinding>, hasPlan: bool, refused: nat, lastTaken: Option<Decision>,
                         awaits: nat)

  function GatesOf(t: Trace): Gates {
    Gates(SlotsOf(t), BriefPassed(t), t != [] && ApprovesMerge(t[|t| - 1]), Fixes(t), Revises(t), Actions(t),
          Outstanding(t), HasPlan(t), RefusedPlans(t), LastTaken(t), Awaits(t))
  }

  function GatesAfter(g: Gates, e: Event<Note>): Gates {
    Gates(SlotsAfter(g.slots, e.act), g.briefPassed || ApprovesBrief(e), ApprovesMerge(e),
          g.fixes + if IsNote(e, Acted(Fix)) then 1 else 0,
          g.revises + if IsNote(e, Revised) then 1 else 0,
          g.actions + if IsAction(e) then 1 else 0,
          OutstandingAfter(g.outstanding, e), HasPlanAfter(g.hasPlan, e), RefusedAfter(g.refused, e),
          TakenAfter(g.lastTaken, e), g.awaits + if IsAwait(e) then 1 else 0)
  }

  lemma GatesOne(t: Trace, e: Event<Note>)
    ensures GatesOf(t + [e]) == GatesAfter(GatesOf(t), e)
    ensures GateSafe(t + [e]) <==> GateSafe(t) && GateAllows(GatesOf(t), e.act)
  {
    assert (t + [e])[..|t + [e]| - 1] == t;
  }

  /** A decision taken is the one latched; a revise goes before a brief decision, an action before a
      merge decision, and the brief gate waits for a plan the critic let through; planning stops at such
      a plan; a gate waits only while nothing is latched that it would take; a build needs a passed brief,
      a merge directly follows its approval. */
  predicate GateAllows(g: Gates, act: Act<Note>) {
    match act
    case Discovery => !g.hasPlan
    case Build => g.briefPassed
    case MergeBranch => g.mergeApproved
    case Note(note) =>
      (match note
       case BriefTaken(decision) =>
         g.slots.brief == Some(decision) && g.slots.revise.None? && !g.briefPassed && g.hasPlan
       case Revised => g.slots.revise.Some? && !g.briefPassed && g.hasPlan
       case MergeTaken(decision) => g.slots.merge == Some(decision) && g.slots.action.None?
       case Acted(action) => g.slots.action == Some(action)
       case Waited(gate) =>
         if gate.BriefPending? then g.slots.brief.None? && g.slots.revise.None? && g.hasPlan && !g.briefPassed
         else gate.MergePending? && g.slots.merge.None? && g.slots.action.None? && g.briefPassed
       case _ => true)
    case _ => true
  }

  predicate GateSafe(t: Trace) {
    t == [] ||
    var init := t[..|t| - 1];
    GateSafe(init) && GateAllows(GatesOf(init), t[|t| - 1].act)
  }

  // ---------- What gate safety means for a whole run ----------

  predicate TouchesBrief(e: Event<Note>) {
    e.act.Note? && (e.act.note.BriefSet? || e.act.note.Revised?)
  }

  predicate TouchesMerge(e: Event<Note>) {
    e.act.Note? && (e.act.note.MergeSet? || e.act.note.Acted?)
  }

  /** The brief decision in force at position b was delivered at `at`: nothing delivered after it
      replaced it and no revise was consumed since. */
  ghost predicate BriefFrom(t: Trace, at: nat, b: nat, decision: Decision)
    requires b <= |t|
  {
    at < b && IsNote(t[at], BriefSet(decision)) && forall i :: at < i < b ==> !TouchesBrief(t[i])
  }

  /** Likewise for the merge decision: no fix or rebuild was consumed since its delivery. */
  ghost predicate MergeFrom(t: Trace, at: nat, b: nat, decision: Decision)
    requires b <= |t|
  {
    at < b && IsNote(t[at], MergeSet(decision)) && forall i :: at < i < b ==> !TouchesMerge(t[i])
  }

  lemma {:induction false} BriefSlotMeans(t: Trace)
    requires SlotsOf(t).brief.Some?
    ensures exists at: nat :: BriefFrom(t, at, |t|, SlotsOf(t).brief.value)
  {
    var init, e := t[..|t| - 1], t[|t| - 1];
    assert t == init + [e];
    if TouchesBrief(e) {
      assert BriefFrom(t, |init|, |t|, SlotsOf(t).brief.value);
    } else {
      BriefSlotMeans(init);
      var at: nat :| BriefFrom(init, at, |init|, SlotsOf(init).brief.value);
      assert BriefFrom(t, at, |t|, SlotsOf(t).brief.value);
    }
  }

  lemma {:induction false} MergeSlotMeans(t: Trace)
    requires SlotsOf(t).merge.Some?
    ensures exists at: nat :: MergeFrom(t, at, |t|, SlotsOf(t).merge.value)
  {
    var init, e := t[..|t| - 1], t[|t| - 1];
    assert t == init + [e];
    if TouchesMerge(e) {
      assert MergeFrom(t, |init|, |t|, SlotsOf(t).merge.value);
    } else {
      MergeSlotMeans(init);
      var at: nat :| MergeFrom(init, at, |init|, SlotsOf(init).merge.value);
      assert MergeFrom(t, at, |t|, SlotsOf(t).merge.value);
    }
  }

  /** No action waits to be consumed: each one delivered was consumed later. */
  lemma {:induction false} NoActionMeans(t: Trace, a: nat)
    requires SlotsOf(t).action.None? && a < |t| && t[a].act.Note? && t[a].act.note.ActionSet?
    ensures exists c :: a < c < |t| && t[c].act.Note? && t[c].act.note.Acted?
  {
    var init, e := t[..|t| - 1], t[|t| - 1];
    if e.act.Note? && e.act.note.Acted? {
      assert a < |t| - 1;
    } else {
      assert init[a] == t[a];
      NoActionMeans(init, a);
      var c :| a < c < |init| && init[c].act.Note? && init[c].act.note.Acted?;
      assert t[c] == init[c];
    }
  }

  predicate SetsBrief(e: Event<Note>) {
    e.act.Note? && (e.act.note.BriefSet? || e.act.note.ReviseSet?)
  }

  predicate SetsMerge(e: Event<Note>) {
    e.act.Note? && (e.act.note.MergeSet? || e.act.note.ActionSet?)
  }

  /** Nothing is latched for a gate: whatever was delivered to it was cleared later. */
  lemma {:induction false} BriefClearedMeans(t: Trace, a: nat)
    requires SlotsOf(t).brief.None? && SlotsOf(t).revise.None? && a < |t| && SetsBrief(t[a])
    ensures exists c :: a < c < |t| && IsNote(t[c], Revised)
  {
    var init, e := t[..|t| - 1], t[|t| - 1];
    if IsNote(e, Revised) {
      assert a < |t| - 1;
    } else {
      assert init[a] == t[a];
      BriefClearedMeans(init, a);
      var c :| a < c < |init| && IsNote(init[c], Revised);
      assert t[c] == init[c];
    }
  }

  lemma {:induction false} MergeClearedMeans(t: Trace, a: nat)
    requires SlotsOf(t).merge.None? && SlotsOf(t).action.None? && a < |t| && SetsMerge(t[a])
    ensures exists c :: a < c < |t| && IsAction(t[c])
  {
    var init, e := t[..|t| - 1], t[|t| - 1];
    if IsAction(e) {
      assert a < |t| - 1;
    } else {
      assert init[a] == t[a];
      MergeClearedMeans(init, a);
      var c :| a < c < |init| && IsAction(init[c]);
      assert t[c] == init[c];
    }
  }

  lemma {:induction false} GateSafePrefix(t: Trace, i: nat)
    requires GateSafe(t) && i < |t|
    ensures GateSafe(t[..i]) && GateAllows(GatesOf(t[..i]), t[i].act)
    decreases |t|
  {
    if i < |t| - 1 {
      GateSafePrefix(t[..|t| - 1], i);
      assert t[..|t| - 1][..i] == t[..i];
    }
  }

  lemma {:induction false} BriefPassedMeans(t: Trace)
    requires BriefPassed(t) && GateSafe(t)
    ensures exists k: nat :: k < |t| && ApprovesBrief(t[k]) && forall i :: k <= i < |t| ==> !IsNote(t[i], Revised)
  {
    var init, e := t[..|t| - 1], t[|t| - 1];
    if ApprovesBrief(e) {
      assert forall i :: |t| - 1 <= i < |t| ==> !IsNote(t[i], Revised);
    } else {
      BriefPassedMeans(init);
      var k: nat :| k < |init| && ApprovesBrief(init[k]) && forall i :: k <= i < |init| ==> !IsNote(init[i], Revised);
      assert t == init + [e];
      assert ApprovesBrief(t[k]);
    }
  }

  /** A brief decision taken at k came from the delivery in force. */
  lemma BriefTakenMeans(t: Trace, k: nat)
    requires GateSafe(t) && k < |t| && t[k].act.Note? && t[k].act.note.BriefTaken?
    ensures exists at: nat :: BriefFrom(t, at, k, t[k].act.note.decision)
  {
    hide SlotsOf, BriefPassed, Fixes, Revises, Actions, Outstanding, HasPlan, RefusedPlans, LastTaken, Awaits;
    GateSafePrefix(t, k);
    BriefSlotMeans(t[..k]);
    var decision := t[k].act.note.decision;
    var at: nat :| BriefFrom(t[..k], at, k, decision);
    assert BriefFrom(t, at, k, decision);
  }

  lemma BuildAfterApproval(t: Trace, i: nat)
    requires GateSafe(t) && i < |t| && t[i].act.Build?
    ensures exists k: nat :: k < i && ApprovesBrief(t[k]) && forall j :: k <= j < i ==> !IsNote(t[j], Revised)
  {
    GateSafePrefix(t, i);
    BriefPassedMeans(t[..i]);
    var k: nat :| k < i && ApprovesBrief(t[..i][k]) && forall j :: k <= j < i ==> !IsNote(t[..i][j], Revised);
    forall j | k <= j < i ensures !IsNote(t[j], Revised) {
      assert t[..i][j] == t[j];
    }
  }

  /** Every build was started by an approval that was the last word delivered on the brief, and that
      was delivered after the last revise the run consumed. */
  lemma BuildIsApproved(t: Trace, i: nat)
    requires GateSafe(t) && i < |t| && t[i].act.Build?
    ensures exists at: nat, k: nat :: at < k < i && ApprovesBrief(t[k]) && BriefFrom(t, at, k, t[k].act.note.decision)
                                      && forall j :: at <= j < i ==> !IsNote(t[j], Revised)
  {
    BuildAfterApproval(t, i);
    var k: nat :| k < i && ApprovesBrief(t[k]) && forall j :: k <= j < i ==> !IsNote(t[j], Revised);
    BriefTakenMeans(t, k);
    var at: nat :| BriefFrom(t, at, k, t[k].act.note.decision);
    forall j | at <= j < i ensures !IsNote(t[j], Revised) {
      assert at < j < k ==> !TouchesBrief(t[j]);
    }
  }

  /** Every merge follows at once an approval that was the last word delivered on the merge and was
      delivered after the last fix or rebuild the run consumed. */
  lemma MergeIsApproved(t: Trace, i: nat)
    requires GateSafe(t) && i < |t| && t[i].act.MergeBranch?
    ensures i > 0 && ApprovesMerge(t[i - 1])
    ensures var b: nat := i - 1; exists at: nat :: MergeFrom(t, at, b, t[b].act.note.decision)
  {
    hide SlotsOf, BriefPassed, Fixes, Revises, Actions, Outstanding, HasPlan, RefusedPlans, LastTaken, Awaits;
    GateSafePrefix(t, i);
    assert t[..i][i - 1] == t[i - 1];
    GateSafePrefix(t, i - 1);
    MergeSlotMeans(t[..i - 1]);
    var decision := t[i - 1].act.note.decision;
    var at: nat :| MergeFrom(t[..i - 1], at, i - 1, decision);
    assert MergeFrom(t, at, i - 1, decision);
  }

  /** When a merge decision is taken, every fix or rebuild delivered before was consumed before. */
  lemma NoActionLeftAtMerge(t: Trace, i: nat, a: nat)
    requires GateSafe(t) && a < i < |t| && t[i].act.Note? && t[i].act.note.MergeTaken?
    requires t[a].act.Note? && t[a].act.note.ActionSet?
    ensures exists c: nat :: a < c < i && IsAction(t[c])
  {
    GateSafePrefix(t, i);
    NoActionMeans(t[..i], a);
    var c :| a < c < i && t[..i][c].act.Note? && t[..i][c].act.note.Acted?;
    assert IsAction(t[c]);
  }

  /** Likewise at the brief gate: when a decision is taken, every revise delivered before was consumed. */
  lemma NoReviseLeftAtBrief(t: Trace, i: nat, a: nat)
    requires GateSafe(t) && a < i < |t| && t[i].act.Note? && t[i].act.note.BriefTaken?
    requires t[a].act.Note? && t[a].act.note.ReviseSet?
    ensures exists c: nat :: a < c < i && IsNote(t[c], Revised)
  {
    GateSafePrefix(t, i);
    NoReviseMeans(t[..i], a);
    var c :| a < c < i && IsNote(t[..i][c], Revised);
    assert IsNote(t[c], Revised);
  }

  lemma {:induction false} NoReviseMeans(t: Trace, a: nat)
    requires SlotsOf(t).revise.None? && a < |t| && t[a].act.Note? && t[a].act.note.ReviseSet?
    ensures exists c :: a < c < |t| && IsNote(t[c], Revised)
  {
    var init, e := t[..|t| - 1], t[|t| - 1];
    if IsNote(e, Revised) {
      assert a < |t| - 1;
    } else {
      assert init[a] == t[a];
      NoReviseMeans(init, a);
      var c :| a < c < |init| && IsNote(init[c], Revised);
      assert t[c] == init[c];
    }
  }

  /** A brief decision is taken only on a plan that the critic let through, with no other verdict and no
      revise in between. */
  lemma BriefIsOfApprovedPlan(t: Trace, i: nat)
    requires GateSafe(t) && i < |t| && t[i].act.Note? && t[i].act.note.BriefTaken?
    ensures exists j :: 0 <= j < i && IsNote(t[j], Judged(true)) && forall k :: j < k < i ==> !Replans(t[k])
  {
    hide SlotsOf, BriefPassed, Fixes, Revises, Actions, Outstanding, HasPlan, RefusedPlans, LastTaken, Awaits, GateSafe,
         Replans;
    GateSafePrefix(t, i);
    HasPlanMeans(t[..i]);
    var j :| 0 <= j < i && IsNote(t[..i][j], Judged(true)) && forall k :: j < k < i ==> !Replans(t[..i][k]);
    assert IsNote(t[j], Judged(true));
    assert forall k :: j < k < i ==> t[..i][k] == t[k];
  }

  predicate Replans(e: Event<Note>) {
    e.act.Note? && (e.act.note.Judged? || e.act.note.Revised?)
  }

  lemma {:induction false} HasPlanMeans(t: Trace)
    requires HasPlan(t)
    ensures exists j :: 0 <= j < |t| && IsNote(t[j], Judged(true)) && forall k :: j < k < |t| ==> !Replans(t[k])
  {
    var init, e := t[..|t| - 1], t[|t| - 1];
    if Replans(e) {
      assert IsNote(t[|t| - 1], Judged(true));
    } else {
      HasPlanMeans(init);
      var j :| 0 <= j < |init| && IsNote(init[j], Judged(true)) && forall k :: j < k < |init| ==> !Replans(init[k]);
      assert IsNote(t[j], Judged(true));
      assert forall k :: j < k < |init| ==> init[k] == t[k];
    }
  }

  /** A gate waits only when everything delivered to it was used up: by a revise, by a fix or rebuild. */
  lemma WaitsForNothing(t: Trace, i: nat, a: nat)
    requires GateSafe(t) && a < i < |t| && t[i].act.Note? && t[i].act.note.Waited?
    ensures t[i].act.note.gate.BriefPending? && SetsBrief(t[a]) ==> exists c: nat :: a < c < i && IsNote(t[c], Revised)
    ensures t[i].act.note.gate.MergePending? && SetsMerge(t[a]) ==> exists c: nat :: a < c < i && IsAction(t[c])
    ensures !t[i].act.note.gate.NoGate?
  {
    hide SlotsOf, BriefPassed, Fixes, Revises, Actions, Outstanding, HasPlan, RefusedPlans, LastTaken, Awaits;
    GateSafePrefix(t, i);
    if t[i].act.note.gate.BriefPending? && SetsBrief(t[a]) {
      BriefClearedMeans(t[..i], a);
      var c :| a < c < i && IsNote(t[..i][c], Revised);
      assert IsNote(t[c], Revised);
    }
    if t[i].act.note.gate.MergePending? && SetsMerge(t[a]) {
      MergeClearedMeans(t[..i], a);
      var c :| a < c < i && IsAction(t[..i][c]);
      assert IsAction(t[c]);
    }
  }

  /** The update behind a delivery that decided the brief: a brief update, or the alias while the brief
      gate waited or, with no gate waiting, while no brief decision was latched. It decided no merge. */
  lemma NoDeliveryBacksBothGates(t: Trace, at: nat, u: Update, pending: PendingGate, latched: Option<Decision>,
                                 b: nat, brief: Decision, m: nat, merge: Decision)
    requires at < |t| && IsNote(t[at], Route(u, pending, latched))
    requires b <= |t| && m <= |t|
    ensures BriefFrom(t, at, b, brief) ==> !MergeFrom(t, at, m, merge)
    ensures BriefFrom(t, at, b, brief) && u.ApproveGate? ==> pending.BriefPending? || (pending.NoGate? && latched.None?)
    ensures MergeFrom(t, at, m, merge) && u.ApproveGate? ==> pending.MergePending? || (pending.NoGate? && latched.Some?)
  {
    if u.ApproveGate? {
      assert pending.NoGate? || pending.BriefPending? || pending.MergePending?;
    }
  }

  predicate Reports(e: Event<Note>) {
    e.act.Note? && e.act.note.Built? && e.act.note.reported != []
  }

  /** Nothing is outstanding iff every build that reported something was followed by a fixer turn. */
  lemma {:induction false} OutstandingIff(t: Trace)
    ensures Outstanding(t) == [] <==>
      forall b :: 0 <= b < |t| && Reports(t[b]) ==> exists f :: b < f < |t| && t[f].act.Fixer? && t[f].ok
  {
    if t != [] {
      var init, e := t[..|t| - 1], t[|t| - 1];
      OutstandingIff(init);
      assert forall k :: 0 <= k < |init| ==> init[k] == t[k];
      if e.act.Fixer? && e.ok {
        forall b | 0 <= b < |t| && Reports(t[b]) ensures exists f :: b < f < |t| && t[f].act.Fixer? && t[f].ok {
          assert b < |t| - 1 && t[|t| - 1].act.Fixer?;
        }
      } else if Outstanding(init) != [] {
        var b :| 0 <= b < |init| && Reports(init[b]) && !exists f :: b < f < |init| && init[f].act.Fixer? && init[f].ok;
        assert Reports(t[b]) && !exists f :: b < f < |t| && t[f].act.Fixer? && t[f].ok;
      } else if Reports(e) {
        assert Reports(t[|t| - 1]);
      }
    }
  }

  predicate IsMergeSet(e: Event<Note>) {
    e.act.Note? && e.act.note.MergeSet?
  }

  /** An approval latched before the review is honoured too. The approval that merges was delivered
      after the review at r iff some merge decision was delivered after it; in particular when none was
      latched when the review started. */
  lemma ApprovalSeesReviewIff(t: Trace, i: nat, r: nat)
    requires GateSafe(t) && r < i < |t| && t[i].act.Note? && t[i].act.note.MergeTaken?
    ensures (exists at: nat :: r < at && MergeFrom(t, at, i, t[i].act.note.decision))
       <==> (exists d: nat :: r < d < i && IsMergeSet(t[d]))
    ensures SlotsOf(t[..r]).merge.None? && !IsMergeSet(t[r]) ==> exists d: nat :: r < d < i && IsMergeSet(t[d])
  {
    hide SlotsOf, BriefPassed, Fixes, Revises, Actions, Outstanding, HasPlan, RefusedPlans, LastTaken, Awaits, GateSafe;
    var decision := t[i].act.note.decision;
    GateSafePrefix(t, i);
    MergeSlotMeans(t[..i]);
    var at: nat :| MergeFrom(t[..i], at, i, decision);
    assert MergeFrom(t, at, i, decision);
    if d: nat :| r < d < i && IsMergeSet(t[d]) {
      assert TouchesMerge(t[d]);
      assert d <= at;
    }
    if SlotsOf(t[..r]).merge.None? && !IsMergeSet(t[r]) && at <= r {
      assert t[..i][..r] == t[..r];
      assert IsMergeSet(t[at]) && at < r;
      LatchedStays(t[..r], at);
    }
    assert IsMergeSet(t[at]);
  }

  /** A merge decision stays latched until something touches its slot. */
  lemma {:induction false} LatchedStays(t: Trace, at: nat)
    requires at < |t| && IsMergeSet(t[at]) && forall j :: at < j < |t| ==> !TouchesMerge(t[j])
    ensures SlotsOf(t).merge.Some?
  {
    if at < |t| - 1 {
      var init := t[..|t| - 1];
      assert forall j :: at < j < |init| ==> init[j] == t[j];
      LatchedStays(init, at);
    }
  }
}
