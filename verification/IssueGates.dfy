/** The human side of an issue run: one signal slot that every update overwrites, opened and read by the
    design gate, the merge gate and the cancel checks, and the queue of comments that triage drains. */
module IssueGates {
  import opened Common
  import opened IssueComments
  import opened PipelineState
  import opened RunTrace

  datatype Kind = Approve | Revise | Reject | Cancel | Fix | Rebuild

  datatype Signal = Signal(kind: Kind, text: string)

  /** The update methods that carry a decision. */
  datatype Update =
    | SignalApproval(signal: Signal)
    | ApproveGate(approved: bool, reason: string)
    | ApproveBrief(reason: string) | ReviseBrief(reason: string) | RejectBrief(reason: string)
    | ApproveMerge(reason: string) | RejectMerge(reason: string)
    | TriggerFix(reason: string) | TriggerRebuild(reason: string)

  /** What an update leaves in the slot. */
  function SignalOf(u: Update): (signal: Signal)
    ensures signal.kind.Approve? <==>
      u.ApproveBrief? || u.ApproveMerge? || (u.ApproveGate? && u.approved) || (u.SignalApproval? && u.signal.kind.Approve?)
    ensures signal.kind.Reject? <==>
      u.RejectBrief? || u.RejectMerge? || (u.ApproveGate? && !u.approved) || (u.SignalApproval? && u.signal.kind.Reject?)
    ensures signal.kind.Cancel? <==> u.SignalApproval? && u.signal.kind.Cancel?
    ensures u.TriggerFix? ==> signal.kind.Fix?
    ensures u.TriggerRebuild? ==> signal.kind.Rebuild?
  {
    match u
    case SignalApproval(signal) => signal
    case ApproveGate(approved, reason) => Signal(if approved then Approve else Reject, reason)
    case ApproveBrief(reason) => Signal(Approve, reason)
    case ReviseBrief(reason) => Signal(Revise, reason)
    case RejectBrief(reason) => Signal(Reject, reason)
    case ApproveMerge(reason) => Signal(Approve, reason)
    case RejectMerge(reason) => Signal(Reject, reason)
    case TriggerFix(reason) => Signal(Fix, reason)
    case TriggerRebuild(reason) => Signal(Rebuild, reason)
  }

  datatype Gate = Design | Merge

  /** What an issue run's trace notes: deliveries, its gates and cancel checks, what it does with the
      queue of comments, whether triage found the issue ready and asked its author, each wait outside an
      activity, whether the critic let a plan through, and after each build and fixer turn that ended well
      whether it reported anything that blocks a verdict. */
  datatype Note =
    | Signaled(signal: Signal)
    | Said(comments: seq<Comment>)
    | Drained
    | Triaged(ready: bool)
    | Asked
    | Waited
    | Checked
    | Planned(approved: bool)
    | Opened(gate: Gate)
    | Cleared
    | Taken(gate: Gate, kind: Kind)
    | SpecApproved(rev: nat, spec: seq<WorkItem>)
    | BuildOf(spec: seq<WorkItem>)
    | Reported(blocking: bool)

  type Trace = seq<Event<Note>>

  function Noted(note: Note): Event<Note> {
    Event(Act.Note(note), true)
  }

  predicate IsNote(e: Event<Note>, note: Note) {
    e.act.Note? && e.act.note == note
  }

  /** The comments queued and those taken in; whether the last triage turn ended well with nothing
      taken in since, and whether triage accepted the issue; how many turns found it not ready, whether a
      question to its author is open, and how many were answered, by comments taken in. */
  datatype Talk = Talk(queue: seq<Comment>, taken: seq<Comment>, judged: bool, accepted: bool,
                       unready: nat, asked: bool, rounds: nat)

  /** A signal that the run took: at a gate, or in a check that found a cancel. */
  datatype Taking = AtGate(gate: Gate, signal: Signal) | AtCheck(signal: Signal)

  /** Where the gates stand. `open` is the gate whose signal has not been taken since it opened;
      `canceling` says that a check or a gate found a cancel, `built` that a build was started, `hasPlan`
      that the critic let the last plan through, `refused` how many it refused since the last design
      decision; `awaits` counts activities and waits. */
  datatype Gates = Gates(slot: Option<Signal>, open: Option<Gate>, designPassed: bool, mergePassed: bool,
                         building: bool, approved: Option<(nat, seq<WorkItem>)>,
                         lastDesign: Option<Kind>, revises: nat, replans: nat, fixes: nat, actions: nat,
                         blocked: bool, talk: Talk, canceling: bool, built: bool,
                         last: Option<Taking>, hasPlan: bool, refused: nat, awaits: nat)

  const SILENT := Talk([], [], false, false, 0, false, 0)

  const CLOSED := Gates(None, None, false, false, false, None, None, 0, 0, 0, 0, false, SILENT,
                        false, false, None, false, 0, 0)

  predicate Takes(e: Event<Note>, gate: Gate) {
    e.act.Note? && e.act.note.Taken? && e.act.note.gate == gate
  }

  predicate TakesKind(e: Event<Note>, gate: Gate, kind: Kind) {
    Takes(e, gate) && e.act.note.kind == kind
  }

  function SlotAfter(slot: Option<Signal>, e: Event<Note>): Option<Signal> {
    if !TouchesSlot(e) then slot else if e.act.note.Signaled? then Some(e.act.note.signal) else None
  }

  function OpenAfter(open: Option<Gate>, e: Event<Note>): Option<Gate> {
    if e.act.Note? && e.act.note.Opened? then Some(e.act.note.gate)
    else if Takes(e, Design) || Takes(e, Merge) then None
    else open
  }

  function ApprovedAfter(approved: Option<(nat, seq<WorkItem>)>, e: Event<Note>): Option<(nat, seq<WorkItem>)> {
    if e.act.Note? && e.act.note.SpecApproved? then Some((e.act.note.rev, e.act.note.spec)) else approved
  }

  function TalkAfter(talk: Talk, e: Event<Note>): Talk {
    if IsNote(e, Drained) then
      var answered := talk.asked && talk.queue != [];
      Talk([], talk.taken + talk.queue, false, talk.accepted, talk.unready, talk.asked && !answered,
           talk.rounds + if answered then 1 else 0)
    else
      Talk(if e.act.Note? && e.act.note.Said? then talk.queue + HumanComments(e.act.note.comments) else talk.queue,
           talk.taken, if e.act.Triage? then e.ok else talk.judged, talk.accepted || IsNote(e, Triaged(true)),
           talk.unready + (if IsNote(e, Triaged(false)) then 1 else 0), talk.asked || IsNote(e, Asked), talk.rounds)
  }

  function LastAfter(g: Gates, e: Event<Note>): Option<Taking> {
    if g.slot.None? then g.last
    else if Takes(e, Design) || Takes(e, Merge) then Some(AtGate(e.act.note.gate, g.slot.value))
    else if FindsCancel(g, e) then Some(AtCheck(g.slot.value))
    else g.last
  }

  predicate HasPlanAfter(hasPlan: bool, e: Event<Note>) {
    if e.act.Note? && e.act.note.Planned? then e.act.note.approved
    else if Takes(e, Design) then e.act.note.kind.Approve?
    else hasPlan
  }

  function RefusedAfter(refused: nat, e: Event<Note>): nat {
    if Takes(e, Design) then 0 else refused + if IsNote(e, Planned(false)) then 1 else 0
  }

  /** What an event posts, markers included. */
  function PostedBy(e: Event<Note>): seq<Comment> {
    if e.act.Note? && e.act.note.Said? then e.act.note.comments else []
  }

  /** The run looks for a cancel and finds one. */
  predicate FindsCancel(g: Gates, e: Event<Note>) {
    || (IsNote(e, Checked) && CancelLatched(g))
    || TakesKind(e, Design, Cancel) || TakesKind(e, Merge, Cancel)
  }

  predicate IsAwait(e: Event<Note>) {
    !e.act.Note? || e.act.note.Waited?
  }

  function GatesAfter(g: Gates, e: Event<Note>): Gates {
    Gates(SlotAfter(g.slot, e), OpenAfter(g.open, e),
          if Takes(e, Design) then e.act.note.kind.Approve? else g.designPassed,
          if Takes(e, Merge) then e.act.note.kind.Approve? else g.mergePassed,
          e.act.Note? && e.act.note.BuildOf?, ApprovedAfter(g.approved, e),
          if Takes(e, Design) then Some(e.act.note.kind) else g.lastDesign,
          g.revises + (if TakesKind(e, Design, Revise) then 1 else 0),
          g.replans + (if Takes(e, Design) && Replans(e.act.note.kind) then 1 else 0),
          g.fixes + (if TakesKind(e, Merge, Fix) then 1 else 0),
          g.actions + (if Takes(e, Merge) && Stray(e.act.note.kind) then 1 else 0),
          g.blocked || IsNote(e, Reported(true)), TalkAfter(g.talk, e), g.canceling || FindsCancel(g, e),
          g.built || e.act.Build?, LastAfter(g, e), HasPlanAfter(g.hasPlan, e), RefusedAfter(g.refused, e),
          g.awaits + if IsAwait(e) then 1 else 0)
  }

  // ---------- What each event changes ----------

  function ActAfter(g: Gates, act: Act<Note>, ok: bool): Gates {
    g.(building := false, built := g.built || act.Build?, awaits := g.awaits + 1,
       talk := g.talk.(judged := if act.Triage? then ok else g.talk.judged))
  }

  lemma ActGates(g: Gates, act: Act<Note>, ok: bool)
    requires !act.Note?
    ensures GatesAfter(g, Event(act, ok)) == ActAfter(g, act, ok)
  {}

  lemma SignaledGates(g: Gates, signal: Signal)
    ensures GatesAfter(g, Noted(Signaled(signal))) == g.(slot := Some(signal), building := false)
  {}

  lemma SaidGates(g: Gates, comments: seq<Comment>)
    ensures GatesAfter(g, Noted(Said(comments))) ==
      g.(building := false, talk := g.talk.(queue := g.talk.queue + HumanComments(comments)))
  {
    hide HumanComments;
  }

  lemma DrainedGates(g: Gates)
    ensures var answered := g.talk.asked && g.talk.queue != [];
      GatesAfter(g, Noted(Drained)) ==
        g.(building := false,
           talk := g.talk.(queue := [], taken := g.talk.taken + g.talk.queue, judged := false,
                           asked := g.talk.asked && !answered, rounds := g.talk.rounds + if answered then 1 else 0))
  {}

  lemma TriagedGates(g: Gates, ready: bool)
    ensures GatesAfter(g, Noted(Triaged(ready))) ==
      g.(building := false,
         talk := g.talk.(accepted := g.talk.accepted || ready, unready := g.talk.unready + if ready then 0 else 1))
  {}

  lemma AskedGates(g: Gates)
    ensures GatesAfter(g, Noted(Asked)) == g.(building := false, talk := g.talk.(asked := true))
  {}

  lemma WaitedGates(g: Gates)
    ensures GatesAfter(g, Noted(Waited)) == g.(building := false, awaits := g.awaits + 1)
  {}

  lemma CheckedGates(g: Gates)
    ensures GatesAfter(g, Noted(Checked)) ==
      g.(building := false, canceling := g.canceling || CancelLatched(g),
         last := if CancelLatched(g) then Some(AtCheck(g.slot.value)) else g.last)
  {}

  lemma PlannedGates(g: Gates, approved: bool)
    ensures GatesAfter(g, Noted(Planned(approved))) ==
      g.(building := false, hasPlan := approved, refused := g.refused + if approved then 0 else 1)
  {}

  lemma OpenedGates(g: Gates, gate: Gate)
    ensures GatesAfter(g, Noted(Opened(gate))) == g.(slot := None, open := Some(gate), building := false)
  {}

  lemma ClearedGates(g: Gates)
    ensures GatesAfter(g, Noted(Cleared)) == g.(slot := None, building := false)
  {}

  lemma DesignTakenGates(g: Gates, signal: Signal)
    requires g.slot == Some(signal)
    ensures GatesAfter(g, Noted(Taken(Design, signal.kind))) ==
      g.(open := None, building := false, designPassed := signal.kind.Approve?, lastDesign := Some(signal.kind),
         revises := g.revises + (if signal.kind.Revise? then 1 else 0),
         replans := g.replans + (if Replans(signal.kind) then 1 else 0),
         canceling := g.canceling || signal.kind.Cancel?, last := Some(AtGate(Design, signal)),
         hasPlan := signal.kind.Approve?, refused := 0)
  {}

  lemma MergeTakenGates(g: Gates, signal: Signal)
    requires g.slot == Some(signal)
    ensures GatesAfter(g, Noted(Taken(Merge, signal.kind))) ==
      g.(open := None, building := false, mergePassed := signal.kind.Approve?,
         fixes := g.fixes + (if signal.kind.Fix? then 1 else 0),
         actions := g.actions + (if Stray(signal.kind) then 1 else 0),
         canceling := g.canceling || signal.kind.Cancel?, last := Some(AtGate(Merge, signal)))
  {}

  lemma SettledGates(g: Gates, rev: nat, spec: seq<WorkItem>)
    ensures GatesAfter(g, Noted(SpecApproved(rev, spec))) == g.(building := false, approved := Some((rev, spec)))
  {}

  lemma AnnouncedGates(g: Gates, spec: seq<WorkItem>)
    ensures GatesAfter(g, Noted(BuildOf(spec))) == g.(building := true)
  {}

  lemma ReportedGates(g: Gates, blocking: bool)
    ensures GatesAfter(g, Noted(Reported(blocking))) == g.(building := false, blocked := g.blocked || blocking)
  {}

  /** A note that is no delivery and no drain leaves the comments in place, and the slot unless it opens a gate
      or clears it. */
  lemma MarkedGates(g: Gates, note: Note)
    requires !note.Signaled? && !note.Said? && !note.Drained? && !note.Waited?
    ensures var after := GatesAfter(g, Noted(note));
      && after.slot == (if note.Opened? || note.Cleared? then None else g.slot)
      && after.talk.queue == g.talk.queue && after.talk.taken == g.talk.taken && after.awaits == g.awaits
  {}

  function GatesOf(t: Trace): Gates {
    if t == [] then CLOSED else GatesAfter(GatesOf(t[..|t| - 1]), t[|t| - 1])
  }

  /** Design decisions that send the run back to planning: a revise, or a kind the gate ignores. */
  predicate Replans(kind: Kind) {
    kind.Revise? || Stray(kind)
  }

  predicate Stray(kind: Kind) {
    kind.Fix? || kind.Rebuild?
  }

  predicate CancelLatched(g: Gates) {
    g.slot.Some? && g.slot.value.kind.Cancel?
  }

  /** A gate takes the signal in the slot while it is open; the design gate is passed once and before
      the merge gate opens; the spec approved carries its revision; every build is of that spec; a
      merge needs the merge gate's approval; no verify passes after a blocking report. Comments are
      taken in, and triage turns start, until triage accepts the issue; it judges right after a turn
      with nothing taken in since, and after a turn that found the issue not ready the next one waits until
      the author was asked and something was taken in. Planning stops at a plan the critic let through, and
      the design gate opens on one. The run waits only for a signal to an open gate that has none, or for an
      answer while nothing was said. Cancels are checked for before that and between the design's
      approval and the first build. Neither a triage turn nor the first build starts on a latched
      cancel, a triage turn starts on an empty queue, planning follows the acceptance, and once a cancel
      was found there is only housekeeping and the teardown. */
  predicate NoteAllowed(g: Gates, note: Note) {
    match note
    case Signaled(_) | Said(_) | Cleared | Reported(_) => true
    case Drained => !g.canceling && !g.talk.accepted
    case Triaged(_) => !g.canceling && !g.talk.accepted && g.talk.judged && g.talk.unready == g.talk.rounds
    case Asked => !g.canceling && !g.talk.accepted && !g.talk.asked && g.talk.unready == g.talk.rounds + 1
    case Waited =>
      !g.canceling && ((g.open.Some? && g.slot.None?) || (g.talk.asked && g.talk.queue == [] && !CancelLatched(g)))
    case Planned(_) => !g.canceling && g.talk.accepted && !g.hasPlan
    case Checked => !g.canceling && (g.talk.accepted ==> g.designPassed && !g.built)
    case Opened(gate) =>
      !g.canceling && !g.mergePassed && (gate.Design? <==> !g.designPassed) && (gate.Design? ==> g.hasPlan)
    case Taken(gate, kind) => !g.canceling && g.open == Some(gate) && g.slot.Some? && g.slot.value.kind == kind
    case SpecApproved(rev, _) => g.designPassed && g.approved.None? && rev == 1 + g.revises
    case BuildOf(spec) => g.approved.Some? && g.approved.value.1 == spec && (g.actions == 0 ==> !CancelLatched(g))
  }

  predicate GateAllows(g: Gates, act: Act<Note>) {
    match act
    case Note(note) => NoteAllowed(g, note)
    case Housekeeping | Teardown => true
    case Triage =>
      !g.canceling && !CancelLatched(g) && !g.talk.accepted && g.talk.queue == [] && g.talk.unready == g.talk.rounds
    case Discovery => !g.canceling && g.talk.accepted && !g.hasPlan
    case Build => !g.canceling && g.designPassed && g.building && !g.mergePassed
    case Fixer => !g.canceling && g.designPassed && !g.mergePassed
    case MergeBranch => !g.canceling && g.mergePassed
    case Verify(passed) => !g.canceling && (passed ==> !g.blocked)
    case _ => !g.canceling
  }

  predicate GateSafe(t: Trace) {
    t == [] ||
    var init := t[..|t| - 1];
    GateSafe(init) && GateAllows(GatesOf(init), t[|t| - 1].act)
  }

  lemma GatesOne(t: Trace, e: Event<Note>)
    ensures GatesOf(t + [e]) == GatesAfter(GatesOf(t), e)
    ensures GateSafe(t + [e]) <==> GateSafe(t) && GateAllows(GatesOf(t), e.act)
  {
    assert (t + [e])[..|t + [e]| - 1] == t;
  }

  // ---------- What gate safety means for a whole run ----------

  predicate IsTaken(e: Event<Note>, gate: Gate, kind: Kind) {
    IsNote(e, Taken(gate, kind))
  }

  predicate IsSignal(e: Event<Note>, kind: Kind) {
    e.act.Note? && e.act.note.Signaled? && e.act.note.signal.kind == kind
  }

  /** Overwrites or empties the slot. */
  predicate TouchesSlot(e: Event<Note>) {
    e.act.Note? && (e.act.note.Signaled? || e.act.note.Opened? || e.act.note.Cleared?)
  }

  /** The gate opened at o, the signal came in at s after that, and it was still the one in the slot
      at position b. */
  ghost predicate SignaledSince(t: Trace, gate: Gate, kind: Kind, o: nat, s: nat, b: nat)
    requires b <= |t|
  {
    && o < s < b
    && IsNote(t[o], Opened(gate))
    && IsSignal(t[s], kind)
    && forall i :: s < i < b ==> !TouchesSlot(t[i])
  }

  /** The latest opening of the open gate. */
  lemma {:induction false} OpenMeans(t: Trace)
    requires GatesOf(t).open.Some?
    ensures exists o: nat :: o < |t| && IsNote(t[o], Opened(GatesOf(t).open.value))
  {
    var init, e := t[..|t| - 1], t[|t| - 1];
    assert t == init + [e];
    if e.act.Note? && e.act.note.Opened? {
      assert IsNote(t[|init|], Opened(GatesOf(t).open.value));
    } else {
      OpenMeans(init);
      var o: nat :| o < |init| && IsNote(init[o], Opened(GatesOf(init).open.value));
      assert t[o] == init[o];
    }
  }

  /** A delivery to the open gate explains the signal at the end of a trace. */
  ghost predicate Explains(t: Trace, gate: Gate, kind: Kind) {
    exists o: nat, s: nat :: SignaledSince(t, gate, kind, o, s, |t|)
  }

  lemma SignaledExtends(t: Trace, e: Event<Note>, gate: Gate, kind: Kind)
    requires Explains(t, gate, kind) && !TouchesSlot(e)
    ensures Explains(t + [e], gate, kind)
  {
    var o: nat, s: nat :| SignaledSince(t, gate, kind, o, s, |t|);
    assert SignaledSince(t + [e], gate, kind, o, s, |t + [e]|);
  }

  lemma JustSignaled(t: Trace, e: Event<Note>, gate: Gate, kind: Kind, o: nat)
    requires o < |t| && IsNote(t[o], Opened(gate)) && IsSignal(e, kind)
    ensures Explains(t + [e], gate, kind)
  {
    assert SignaledSince(t + [e], gate, kind, o, |t|, |t + [e]|);
  }

  /** One event leaves slot and open gate alone, or is the signal now in the slot of the open gate. */
  lemma SlotStep(g: Gates, e: Event<Note>)
    requires GatesAfter(g, e).open.Some? && GatesAfter(g, e).slot.Some?
    ensures GatesAfter(g, e).open == g.open
    ensures !TouchesSlot(e) ==> GatesAfter(g, e).slot == g.slot
    ensures TouchesSlot(e) ==> IsSignal(e, GatesAfter(g, e).slot.value.kind)
  {
    if e.act.Note? {
      match e.act.note
      case Taken(_, _) =>
      case _ =>
    }
  }

  lemma {:induction false} SlotMeans(t: Trace)
    requires GatesOf(t).open.Some? && GatesOf(t).slot.Some?
    ensures Explains(t, GatesOf(t).open.value, GatesOf(t).slot.value.kind)
  {
    assert t != [];
    hide Explains, GatesOf, GatesAfter, TouchesSlot;
    var init, e := t[..|t| - 1], t[|t| - 1];
    var g := GatesOf(t);
    assert t == init + [e];
    GatesOne(init, e);
    SlotStep(GatesOf(init), e);
    if TouchesSlot(e) {
      OpenMeans(init);
      var o: nat :| o < |init| && IsNote(init[o], Opened(GatesOf(init).open.value));
      JustSignaled(init, e, g.open.value, g.slot.value.kind, o);
    } else {
      SlotMeans(init);
      SignaledExtends(init, e, g.open.value, g.slot.value.kind);
    }
  }

  lemma {:induction false} GateSafePrefix(t: Trace, i: nat)
    requires GateSafe(t) && i < |t|
    ensures GateSafe(t[..i]) && GateAllows(GatesOf(t[..i]), t[i].act)
    decreases |t|
  {
    if i < |t| - 1 {
      GateSafePrefix(t[..|t| - 1], i);
      assert t[..|t| - 1][..i] == t[..i];
    }
  }

  /** Every decision a gate takes was delivered after that gate opened, and nothing overwrote it. */
  lemma TakenAfterOpening(t: Trace, i: nat, gate: Gate, kind: Kind)
    requires GateSafe(t) && i < |t| && IsTaken(t[i], gate, kind)
    ensures exists o: nat, s: nat :: SignaledSince(t, gate, kind, o, s, i)
  {
    hide GatesOf, GateSafe;
    GateSafePrefix(t, i);
    SlotMeans(t[..i]);
    var o: nat, s: nat :| SignaledSince(t[..i], gate, kind, o, s, i);
    assert SignaledSince(t, gate, kind, o, s, i);
  }

  lemma {:induction false} DesignPassedMeans(t: Trace)
    requires GatesOf(t).designPassed
    ensures exists k: nat :: k < |t| && IsTaken(t[k], Design, Approve)
  {
    var init, e := t[..|t| - 1], t[|t| - 1];
    assert t == init + [e];
    if IsTaken(e, Design, Approve) {
      assert IsTaken(t[|init|], Design, Approve);
    } else {
      DesignPassedMeans(init);
      var k: nat :| k < |init| && IsTaken(init[k], Design, Approve);
      assert t[k] == init[k];
    }
  }

  predicate Judges(e: Event<Note>) {
    e.act.Note? && (e.act.note.Planned? || (e.act.note.Taken? && e.act.note.gate.Design?))
  }

  lemma PlanStep(g: Gates, e: Event<Note>)
    requires GatesAfter(g, e).hasPlan && !GatesAfter(g, e).designPassed
    ensures if Judges(e) then IsNote(e, Planned(true)) else g.hasPlan && !g.designPassed
  {}

  /** The critic let a plan through at j, and nothing was judged or decided since. */
  ghost predicate PlanFrom(t: Trace, j: int) {
    0 <= j < |t| && IsNote(t[j], Planned(true)) && forall k :: j < k < |t| ==> !Judges(t[k])
  }

  lemma {:induction false} HasPlanMeans(t: Trace)
    requires GatesOf(t).hasPlan && !GatesOf(t).designPassed
    ensures exists j :: PlanFrom(t, j)
  {
    assert t != [];
    hide GatesOf, GatesAfter, Judges;
    var init, e := t[..|t| - 1], t[|t| - 1];
    assert t == init + [e];
    GatesOne(init, e);
    PlanStep(GatesOf(init), e);
    if Judges(e) {
      assert PlanFrom(t, |init|);
    } else {
      HasPlanMeans(init);
      var j :| PlanFrom(init, j);
      assert PlanFrom(t, j);
    }
  }

  /** The design gate opens only on a plan that the critic let through, with no other verdict and no
      design decision in between. */
  lemma DesignIsOfApprovedPlan(t: Trace, o: nat)
    requires GateSafe(t) && o < |t| && IsNote(t[o], Opened(Design))
    ensures exists j :: PlanFrom(t[..o], j)
  {
    GateSafePrefix(t, o);
    HasPlanMeans(t[..o]);
  }

  lemma {:induction false} MergePassedMeans(t: Trace)
    requires GatesOf(t).mergePassed
    ensures exists k: nat :: k < |t| && IsTaken(t[k], Merge, Approve)
  {
    var init, e := t[..|t| - 1], t[|t| - 1];
    assert t == init + [e];
    if IsTaken(e, Merge, Approve) {
      assert IsTaken(t[|init|], Merge, Approve);
    } else {
      MergePassedMeans(init);
      var k: nat :| k < |init| && IsTaken(init[k], Merge, Approve);
      assert t[k] == init[k];
    }
  }

  /** One event of a safe trace approves a spec or leaves the approval, and what it rests on, alone. */
  lemma ApprovalStep(g: Gates, e: Event<Note>)
    requires GateAllows(g, e.act) && GatesAfter(g, e).approved.Some?
    requires g.open == Some(Design) ==> !g.designPassed
    requires g.approved.Some? ==> g.designPassed && g.open != Some(Design) && g.approved.value.0 == 1 + g.revises
    ensures var next := GatesAfter(g, e);
      next.designPassed && next.open != Some(Design) && next.approved.value.0 == 1 + next.revises
  {
    if e.act.Note? {
      match e.act.note
      case Taken(_, _) =>
      case Opened(_) =>
      case SpecApproved(_, _) =>
      case _ =>
    }
  }

  /** From the approval of a spec on, the design gate is passed and closed, and its revision is one more
      than the revises taken. */
  lemma {:induction false} ApprovedRevision(t: Trace)
    requires GateSafe(t) && GatesOf(t).approved.Some?
    ensures GatesOf(t).designPassed && GatesOf(t).open != Some(Design)
    ensures GatesOf(t).approved.value.0 == 1 + GatesOf(t).revises
  {
    hide GateAllows;
    var init, e := t[..|t| - 1], t[|t| - 1];
    OpenDesignUnpassed(init);
    if GatesOf(init).approved.Some? {
      ApprovedRevision(init);
    }
    ApprovalStep(GatesOf(init), e);
  }

  lemma ApprovalComes(g: Gates, e: Event<Note>)
    ensures GatesAfter(g, e).approved ==
      if e.act.Note? && e.act.note.SpecApproved? then Some((e.act.note.rev, e.act.note.spec)) else g.approved
  {}

  lemma {:induction false} ApprovedMeans(t: Trace)
    requires GateSafe(t) && GatesOf(t).approved.Some?
    ensures exists k: nat :: k < |t| && IsNote(t[k], SpecApproved(GatesOf(t).approved.value.0, GatesOf(t).approved.value.1))
  {
    assert t != [];
    hide GatesOf, GateSafe, GatesAfter;
    var init, e := t[..|t| - 1], t[|t| - 1];
    assert t == init + [e];
    GatesOne(init, e);
    ApprovalComes(GatesOf(init), e);
    if e.act.Note? && e.act.note.SpecApproved? {
      assert IsNote(t[|t| - 1], SpecApproved(GatesOf(t).approved.value.0, GatesOf(t).approved.value.1));
    } else {
      ApprovedMeans(init);
      var k: nat :| k < |init| && IsNote(init[k], SpecApproved(GatesOf(init).approved.value.0, GatesOf(init).approved.value.1));
      assert t[k] == init[k];
    }
  }

  /** An open design gate has not been passed. */
  lemma {:induction false} OpenDesignUnpassed(t: Trace)
    requires GateSafe(t)
    ensures GatesOf(t).open == Some(Design) ==> !GatesOf(t).designPassed
  {
    if t != [] {
      hide GatesOf, GatesAfter, GateAllows;
      var init, e := t[..|t| - 1], t[|t| - 1];
      assert t == init + [e];
      GatesOne(init, e);
      OpenDesignUnpassed(init);
      OpenStep(GatesOf(init), e);
    }
  }

  /** One event of a safe trace passes the design gate and closes it, and opens it only unpassed. */
  lemma OpenStep(g: Gates, e: Event<Note>)
    requires GateAllows(g, e.act)
    ensures var next := GatesAfter(g, e);
      && ((g.open == Some(Design) ==> !g.designPassed) ==> next.open == Some(Design) ==> !next.designPassed)
      && (g.designPassed && g.open != Some(Design) ==> next.designPassed && next.open != Some(Design))
      && (IsNote(e, Opened(Merge)) ==> next.designPassed && next.open != Some(Design))
  {}

  lemma RevisesOne(t: Trace, e: Event<Note>)
    ensures Revises(t + [e]) == Revises(t) + if IsTaken(e, Design, Revise) then 1 else 0
  {
    assert (t + [e])[..|t + [e]| - 1] == t;
  }

  /** Revise decisions the design gate has taken. */
  function Revises(t: Trace): nat {
    if t == [] then 0 else Revises(t[..|t| - 1]) + if IsTaken(t[|t| - 1], Design, Revise) then 1 else 0
  }

  lemma {:induction false} RevisesCounted(t: Trace)
    ensures GatesOf(t).revises == Revises(t)
  {
    if t != [] {
      var init, e := t[..|t| - 1], t[|t| - 1];
      assert t == init + [e];
      hide GatesOf;
      GatesOne(init, e);
      RevisesCounted(init);
    }
  }

  /** Every build starts only after an approval that was delivered after the design gate opened. */
  lemma BuildIsApproved(t: Trace, i: nat)
    requires GateSafe(t) && i < |t| && t[i].act.Build?
    ensures exists k: nat, o: nat, s: nat :: k < i && IsTaken(t[k], Design, Approve) && SignaledSince(t, Design, Approve, o, s, k)
  {
    hide GatesOf, GateSafe;
    GateSafePrefix(t, i);
    DesignPassedMeans(t[..i]);
    var k: nat :| k < i && IsTaken(t[..i][k], Design, Approve);
    assert IsTaken(t[k], Design, Approve);
    TakenAfterOpening(t, k, Design, Approve);
  }

  /** Every build event directly follows the announcement of its spec. */
  lemma BuildIsAnnounced(t: Trace, i: nat)
    requires GateSafe(t) && i < |t| && t[i].act.Build?
    ensures i > 0 && t[i - 1].act.Note? && t[i - 1].act.note.BuildOf?
  {
    GateSafePrefix(t, i);
    assert t[..i][i - 1] == t[i - 1];
  }

  /** Every build is of the spec approved before it, under the revision that is one more than the
      revises taken by then. */
  lemma BuildIsOfApprovedSpec(t: Trace, i: nat)
    requires GateSafe(t) && i < |t| && t[i].act.Build?
    ensures i > 0 && t[i - 1].act.Note? && t[i - 1].act.note.BuildOf?
    ensures exists k: nat :: k < i && IsNote(t[k], SpecApproved(1 + Revises(t[..i]), t[i - 1].act.note.spec))
  {
    hide GatesOf, GateSafe, Revises;
    BuildIsAnnounced(t, i);
    var b := i - 1;
    GateSafePrefix(t, b);
    ApprovedMeans(t[..b]);
    ApprovedRevision(t[..b]);
    RevisesCounted(t[..b]);
    RevisesOne(t[..b], t[b]);
    assert t[..i] == t[..b] + [t[b]] && t[..i][..b] == t[..b];
    var k: nat :| k < b && IsNote(t[..b][k], SpecApproved(1 + Revises(t[..b]), t[b].act.note.spec));
    assert t[k] == t[..b][k];
  }

  /** A verdict passes only in a run in which no build and no fixer turn so far reported anything that
      blocks. */
  lemma NothingBlocksAPass(t: Trace, i: nat, r: nat)
    requires GateSafe(t) && r < i < |t| && t[i].act.Verify? && t[i].act.passed
    ensures !IsNote(t[r], Reported(true))
  {
    GateSafePrefix(t, i);
    BlockedIff(t[..i]);
    assert t[..i][r] == t[r];
  }

  lemma {:induction false} BlockedIff(t: Trace)
    ensures GatesOf(t).blocked <==> exists r :: 0 <= r < |t| && IsNote(t[r], Reported(true))
  {
    if t != [] {
      var init, e := t[..|t| - 1], t[|t| - 1];
      BlockedIff(init);
      assert forall k :: 0 <= k < |init| ==> init[k] == t[k];
      if IsNote(e, Reported(true)) {
        assert IsNote(t[|t| - 1], Reported(true));
      } else if r :| 0 <= r < |t| && IsNote(t[r], Reported(true)) {
        assert IsNote(init[r], Reported(true));
      }
    }
  }

  /** The last signal delivered before a triage turn starts is no cancel. */
  lemma TriageHeedsCancel(t: Trace, i: nat, s: nat)
    requires GateSafe(t) && s < i < |t| && t[i].act.Triage?
    requires t[s].act.Note? && t[s].act.note.Signaled? && forall j :: s < j < i ==> !TouchesSlot(t[j])
    ensures !IsSignal(t[s], Cancel)
  {
    GateSafePrefix(t, i);
    SlotHolds(t[..i], s);
    assert t[..i][s] == t[s];
  }

  lemma {:induction false} SlotHolds(t: Trace, s: nat)
    requires s < |t| && t[s].act.Note? && t[s].act.note.Signaled?
    requires forall j :: s < j < |t| ==> !TouchesSlot(t[j])
    ensures GatesOf(t).slot == Some(t[s].act.note.signal)
  {
    if s < |t| - 1 {
      var init := t[..|t| - 1];
      assert forall j :: s < j < |init| ==> init[j] == t[j];
      SlotHolds(init, s);
      assert !TouchesSlot(t[|t| - 1]);
    }
  }

  /** Every merge needs an approval delivered after the merge gate opened. */
  lemma MergeIsApproved(t: Trace, i: nat)
    requires GateSafe(t) && i < |t| && t[i].act.MergeBranch?
    ensures exists k: nat, o: nat, s: nat :: k < i && IsTaken(t[k], Merge, Approve) && SignaledSince(t, Merge, Approve, o, s, k)
  {
    GateSafePrefix(t, i);
    MergePassedMeans(t[..i]);
    var k: nat :| k < i && IsTaken(t[..i][k], Merge, Approve);
    assert IsTaken(t[k], Merge, Approve);
    TakenAfterOpening(t, k, Merge, Approve);
  }

  /** Once a design decision other than the last one was taken the merge gate has not opened yet. */
  lemma {:induction false} MergeOpensAfterDesign(t: Trace, d: nat, o: nat)
    requires GateSafe(t) && d < |t| && o < |t|
    requires t[d].act.Note? && t[d].act.note.Taken? && t[d].act.note.gate.Design? && IsNote(t[o], Opened(Merge))
    ensures d < o
  {
    if o < d {
      GateSafePrefix(t, d);
      OpenDesignUnpassed(t[..d]);
      PassedStays(t[..d], o);
    }
  }

  /** From the merge gate's first opening on, the design gate is passed and stays closed. */
  lemma {:induction false} PassedStays(t: Trace, o: nat)
    requires GateSafe(t) && o < |t| && IsNote(t[o], Opened(Merge))
    ensures GatesOf(t).designPassed && GatesOf(t).open != Some(Design)
  {
    hide GatesOf, GateSafe, GatesAfter, GateAllows;
    var init, e := t[..|t| - 1], t[|t| - 1];
    assert t == init + [e];
    GatesOne(init, e);
    OpenStep(GatesOf(init), e);
    if o < |init| {
      assert init[o] == t[o];
      PassedStays(init, o);
    }
  }

  /** The merge is decided by a different delivery than the design: the design's came first. */
  lemma MergeNeedsAnotherApproval(t: Trace, d: nat, m: nat, o: nat, s: nat, o2: nat, s2: nat)
    requires GateSafe(t) && d < |t| && m < |t|
    requires IsTaken(t[d], Design, Approve) && SignaledSince(t, Design, Approve, o, s, d)
    requires IsTaken(t[m], Merge, Approve) && SignaledSince(t, Merge, Approve, o2, s2, m)
    ensures s < d < o2 < s2
  {
    MergeOpensAfterDesign(t, d, o2);
  }

  // ---------- Cancels ----------

  /** A cancel check, or an open gate that wakes: the places where a run looks for a cancel. */
  predicate IsCheck(e: Event<Note>) {
    e.act.Note? && (e.act.note.Checked? || e.act.note.Taken?)
  }

  /** The cancel delivered at s is the signal in the slot when the run next looks for one. */
  ghost predicate HeededAt(t: Trace, s: nat, c: nat) {
    && s < c < |t| && IsSignal(t[s], Cancel) && IsCheck(t[c])
    && forall j :: s < j < c ==> !TouchesSlot(t[j])
  }

  ghost predicate Heeded(t: Trace) {
    exists s: nat, c: nat :: HeededAt(t, s, c)
  }

  lemma HeededExtends(t: Trace, e: Event<Note>)
    requires Heeded(t)
    ensures Heeded(t + [e])
  {
    var s: nat, c: nat :| HeededAt(t, s, c);
    assert HeededAt(t + [e], s, c);
  }

  /** The signal in the slot was delivered, and nothing touched the slot since. */
  lemma {:induction false} SlotFrom(t: Trace) returns (s: nat)
    requires GatesOf(t).slot.Some?
    ensures s < |t| && IsNote(t[s], Signaled(GatesOf(t).slot.value)) && forall j :: s < j < |t| ==> !TouchesSlot(t[j])
  {
    assert t != [];
    hide GatesOf;
    var init, e := t[..|t| - 1], t[|t| - 1];
    assert t == init + [e];
    GatesOne(init, e);
    if TouchesSlot(e) {
      s := |init|;
    } else {
      s := SlotFrom(init);
      assert forall j :: s < j < |init| ==> t[j] == init[j];
    }
  }

  /** One event finds a cancel iff it is a check and a cancel is in the slot. */
  lemma CancelStep(g: Gates, e: Event<Note>)
    requires GateAllows(g, e.act)
    ensures GatesAfter(g, e).canceling <==> g.canceling || (IsCheck(e) && CancelLatched(g))
  {}

  lemma {:induction false} CancelingIff(t: Trace)
    requires GateSafe(t)
    ensures GatesOf(t).canceling <==> Heeded(t)
  {
    if t != [] {
      var init, e := t[..|t| - 1], t[|t| - 1];
      assert t == init + [e];
      hide GateAllows, GatesAfter, GatesOf;
      GatesOne(init, e);
      CancelingIff(init);
      CancelStep(GatesOf(init), e);
      if GatesOf(t).canceling {
        CancelIsHeeded(init, e);
      }
      if s: nat, c: nat :| HeededAt(t, s, c) {
        if c < |init| {
          assert HeededAt(init, s, c);
        } else {
          SlotHolds(init, s);
        }
      }
    }
  }

  lemma CancelIsHeeded(init: Trace, e: Event<Note>)
    requires Heeded(init) || (IsCheck(e) && CancelLatched(GatesOf(init)))
    ensures Heeded(init + [e])
  {
    hide GatesOf;
    if Heeded(init) {
      HeededExtends(init, e);
    } else {
      var s := SlotFrom(init);
      assert HeededAt(init + [e], s, |init|);
    }
  }

  /** After a cancel that is heeded the run starts no stage any more. */
  lemma HeededCancelStops(t: Trace, s: nat, c: nat, i: nat)
    requires GateSafe(t) && HeededAt(t, s, c) && c < i < |t|
    ensures t[i].act.Note? || t[i].act.Housekeeping? || t[i].act.Teardown?
  {
    GateSafePrefix(t, i);
    assert HeededAt(t[..i], s, c);
    CancelingIff(t[..i]);
  }

  /** No check is ahead before the next gate opens: triage is over, no gate is open, and between the
      design's approval and the merge gate the first build has started. */
  predicate PastChecks(g: Gates) {
    g.talk.accepted && g.open.None? && (g.designPassed ==> g.built)
  }

  lemma PastChecksStays(g: Gates, e: Event<Note>)
    requires PastChecks(g) && GateAllows(g, e.act)
    ensures !IsCheck(e)
    ensures !(e.act.Note? && e.act.note.Opened?) ==> PastChecks(GatesAfter(g, e))
  {}

  lemma {:induction false} StillPast(t: Trace, s: nat, i: nat)
    requires GateSafe(t) && s <= i <= |t| && PastChecks(GatesOf(t[..s]))
    requires forall j :: s <= j < i ==> !(t[j].act.Note? && t[j].act.note.Opened?)
    ensures PastChecks(GatesOf(t[..i]))
  {
    if s < i {
      StillPast(t, s, i - 1);
      GateSafePrefix(t, i - 1);
      assert t[..i] == t[..i - 1] + [t[i - 1]];
      GatesOne(t[..i - 1], t[i - 1]);
      PastChecksStays(GatesOf(t[..i - 1]), t[i - 1]);
    }
  }

  /** A cancel delivered there is lost: the next gate forgets it when it opens. */
  lemma CancelIsLost(t: Trace, s: nat, c: nat)
    requires GateSafe(t) && s < |t| && PastChecks(GatesOf(t[..s]))
    ensures !HeededAt(t, s, c)
  {
    if HeededAt(t, s, c) {
      StillPast(t, s, c);
      GateSafePrefix(t, c);
      PastChecksStays(GatesOf(t[..c]), t[c]);
    }
  }

  /** The signal last taken was taken at k, delivered at s, and neither a gate nor a check took another
      one later. */
  ghost predicate TakenAt(t: Trace, taking: Taking, s: nat, k: nat) {
    && s < k < |t| && IsNote(t[s], Signaled(taking.signal)) && (forall j :: s < j < k ==> !TouchesSlot(t[j]))
    && IsNote(t[k], if taking.AtGate? then Taken(taking.gate, taking.signal.kind) else Checked)
    && forall j :: k < j < |t| ==> !(t[j].act.Note? && t[j].act.note.Taken?)
  }

  predicate TakesOne(g: Gates, e: Event<Note>) {
    IsCheck(e) && (e.act.note.Taken? || CancelLatched(g))
  }

  lemma LastStep(g: Gates, e: Event<Note>)
    requires GateAllows(g, e.act) && GatesAfter(g, e).last.Some?
    ensures if TakesOne(g, e)
            then g.slot.Some? && GatesAfter(g, e).last.value.signal == g.slot.value
                 && IsNote(e, if GatesAfter(g, e).last.value.AtGate? then Taken(GatesAfter(g, e).last.value.gate, g.slot.value.kind)
                              else Checked)
            else GatesAfter(g, e).last == g.last && !(e.act.Note? && e.act.note.Taken?)
  {}

  lemma JustTaken(init: Trace, e: Event<Note>, taking: Taking)
    requires GatesOf(init).slot == Some(taking.signal)
    requires IsNote(e, if taking.AtGate? then Taken(taking.gate, taking.signal.kind) else Checked)
    ensures exists s: nat, k: nat :: TakenAt(init + [e], taking, s, k)
  {
    hide GatesOf, TouchesSlot;
    var s := SlotFrom(init);
    assert TakenAt(init + [e], taking, s, |init|);
  }

  lemma StillTaken(init: Trace, e: Event<Note>, taking: Taking)
    requires exists s: nat, k: nat :: TakenAt(init, taking, s, k)
    requires !(e.act.Note? && e.act.note.Taken?)
    ensures exists s: nat, k: nat :: TakenAt(init + [e], taking, s, k)
  {
    hide TouchesSlot;
    var s: nat, k: nat :| TakenAt(init, taking, s, k);
    assert TakenAt(init + [e], taking, s, k);
  }

  lemma {:induction false} LastMeans(t: Trace)
    requires GateSafe(t) && GatesOf(t).last.Some?
    ensures exists s: nat, k: nat :: TakenAt(t, GatesOf(t).last.value, s, k)
  {
    assert t != [];
    hide GatesOf, GatesAfter, GateAllows, TouchesSlot, TakenAt, TakesOne;
    var init, e := t[..|t| - 1], t[|t| - 1];
    assert t == init + [e];
    GatesOne(init, e);
    LastStep(GatesOf(init), e);
    if TakesOne(GatesOf(init), e) {
      JustTaken(init, e, GatesOf(t).last.value);
    } else {
      LastMeans(init);
      StillTaken(init, e, GatesOf(t).last.value);
    }
  }

  // ---------- Comments ----------

  /** Everything posted, markers included. */
  function PostedIn(t: Trace): seq<Comment> {
    if t == [] then []
    else PostedIn(t[..|t| - 1]) + PostedBy(t[|t| - 1])
  }

  /** Where the queue was last emptied. */
  function LastDrain(t: Trace): (d: nat)
    ensures d <= |t|
  {
    if t == [] then 0 else if IsNote(t[|t| - 1], Drained) then |t| else LastDrain(t[..|t| - 1])
  }

  lemma PostedOne(t: Trace, e: Event<Note>)
    ensures PostedIn(t + [e]) == PostedIn(t) + PostedBy(e)
    ensures HumanComments(PostedIn(t + [e])) == HumanComments(PostedIn(t)) + HumanComments(PostedBy(e))
  {
    assert (t + [e])[..|t|] == t;
    HumanCommentsAppend(PostedIn(t), PostedBy(e));
  }

  lemma NothingPosted()
    ensures HumanComments(PostedIn([])) == []
  {}

  lemma {:induction false} PostedConcat(a: Trace, b: Trace)
    ensures HumanComments(PostedIn(a + b)) == HumanComments(PostedIn(a)) + HumanComments(PostedIn(b))
    decreases |b|
  {
    hide PostedIn, PostedBy, HumanComments;
    if b == [] {
      NothingPosted();
      assert a + b == a;
    } else {
      var init, e := b[..|b| - 1], b[|b| - 1];
      assert b == init + [e];
      assert a + b == (a + init) + [e];
      PostedConcat(a, init);
      PostedOne(a + init, e);
      PostedOne(init, e);
    }
  }

  /** What an event does to the comments. */
  lemma TalkStep(g: Gates, e: Event<Note>)
    ensures var talk := GatesAfter(g, e).talk;
      if IsNote(e, Drained) then talk.queue == [] && talk.taken == g.talk.taken + g.talk.queue
      else talk.queue == g.talk.queue + HumanComments(PostedBy(e)) && talk.taken == g.talk.taken
  {}

  /** What was taken in is what was posted before the last drain, what is queued is the rest. */
  lemma {:induction false} TalkMeans(t: Trace)
    ensures GatesOf(t).talk.taken == HumanComments(PostedIn(t[..LastDrain(t)]))
    ensures GatesOf(t).talk.queue == HumanComments(PostedIn(t[LastDrain(t)..]))
  {
    if t != [] {
      hide GatesAfter, GatesOf, PostedIn, PostedBy, HumanComments, LastDrain;
      var init, e := t[..|t| - 1], t[|t| - 1];
      assert t == init + [e];
      TalkMeans(init);
      TalkOne(init, e);
    }
  }

  lemma TalkOne(init: Trace, e: Event<Note>)
    requires GatesOf(init).talk.taken == HumanComments(PostedIn(init[..LastDrain(init)]))
    requires GatesOf(init).talk.queue == HumanComments(PostedIn(init[LastDrain(init)..]))
    ensures var t := init + [e];
      && GatesOf(t).talk.taken == HumanComments(PostedIn(t[..LastDrain(t)]))
      && GatesOf(t).talk.queue == HumanComments(PostedIn(t[LastDrain(t)..]))
  {
    hide GatesAfter, GatesOf, PostedIn, PostedBy, HumanComments;
    var t, d := init + [e], LastDrain(init);
    GatesOne(init, e);
    TalkStep(GatesOf(init), e);
    assert t[..|t| - 1] == init;
    if IsNote(e, Drained) {
      NothingPosted();
      DrainPosts(e);
      DrainAll(init, e, d);
      assert t[..|t|] == t && t[|t|..] == [];
    } else {
      assert t[..d] == init[..d] && t[d..] == init[d..] + [e];
      PostedOne(init[d..], e);
    }
  }

  lemma DrainPosts(e: Event<Note>)
    requires IsNote(e, Drained)
    ensures HumanComments(PostedBy(e)) == []
  {}

  lemma DrainAll(init: Trace, e: Event<Note>, d: nat)
    requires d <= |init| && HumanComments(PostedBy(e)) == []
    ensures HumanComments(PostedIn(init + [e])) == HumanComments(PostedIn(init[..d])) + HumanComments(PostedIn(init[d..]))
  {
    hide PostedIn, HumanComments;
    assert init == init[..d] + init[d..];
    PostedConcat(init[..d], init[d..]);
    PostedOne(init, e);
  }

  lemma JudgedStep(g: Gates, e: Event<Note>)
    requires GateAllows(g, e.act) && (GatesAfter(g, e).talk.judged || GatesAfter(g, e).talk.accepted)
    ensures !IsNote(e, Drained) && (e.act.Triage? || g.talk.judged || g.talk.accepted)
  {}

  /** Once triage judged or accepted the issue nothing was taken in since the last turn started. */
  lemma {:induction false} JudgedMeans(t: Trace)
    requires GateSafe(t) && (GatesOf(t).talk.judged || GatesOf(t).talk.accepted)
    ensures exists a :: LastDrain(t) <= a < |t| && IsLastTriage(t, a)
  {
    assert t != [];
    var init, e := t[..|t| - 1], t[|t| - 1];
    assert t == init + [e];
    hide GatesOf, GateSafe, GatesAfter, GateAllows;
    GatesOne(init, e);
    JudgedStep(GatesOf(init), e);
    if e.act.Triage? {
      assert IsLastTriage(t, |init|);
    } else {
      JudgedMeans(init);
      var a :| LastDrain(init) <= a < |init| && IsLastTriage(init, a);
      assert IsLastTriage(t, a);
    }
  }

  /** A question was asked at a and, after it, comments were taken in at d. */
  ghost predicate AnsweredAt(t: Trace, j: nat, a: nat, d: nat)
  {
    && j < a < d < |t| && IsNote(t[a], Asked) && IsNote(t[d], Drained) && GatesOf(t[..d]).talk.queue != []
  }

  lemma TalkCounts(g: Gates, e: Event<Note>)
    requires GateAllows(g, e.act) && (g.talk.asked ==> g.talk.unready == g.talk.rounds + 1)
    requires g.talk.rounds <= g.talk.unready <= g.talk.rounds + 1
    ensures var talk := GatesAfter(g, e).talk;
      && (talk.asked ==> talk.unready == talk.rounds + 1) && talk.rounds <= talk.unready <= talk.rounds + 1
      && (talk.asked && !IsNote(e, Asked) ==> g.talk.asked)
      && (IsNote(e, Triaged(false)) ==> talk.unready == talk.rounds + 1 && !talk.asked)
      && (talk.unready == talk.rounds && g.talk.unready != g.talk.rounds ==>
            IsNote(e, Drained) && g.talk.asked && g.talk.queue != [])
  {}

  /** Turns that found the issue not ready are answered one by one. */
  lemma {:induction false} TalkCounted(t: Trace)
    requires GateSafe(t)
    ensures var talk := GatesOf(t).talk;
      (talk.asked ==> talk.unready == talk.rounds + 1) && talk.rounds <= talk.unready <= talk.rounds + 1
  {
    if t != [] {
      hide GatesAfter, GateAllows;
      TalkCounted(t[..|t| - 1]);
      TalkCounts(GatesOf(t[..|t| - 1]), t[|t| - 1]);
    }
  }

  lemma {:induction false} QuestionOpen(t: Trace, j: nat)
    requires GateSafe(t) && j < |t| && IsNote(t[j], Triaged(false)) && GatesOf(t).talk.asked
    ensures exists a :: j < a < |t| && IsNote(t[a], Asked)
  {
    hide GatesOf, GatesAfter, GateAllows;
    var init, e := t[..|t| - 1], t[|t| - 1];
    assert t == init + [e];
    GatesOne(init, e);
    TalkCounted(init);
    TalkCounts(GatesOf(init), e);
    if IsNote(e, Asked) {
      assert IsNote(t[|init|], Asked);
    } else {
      assert j < |init|;
      QuestionOpen(init, j);
      var a :| j < a < |init| && IsNote(init[a], Asked);
      assert IsNote(t[a], Asked);
    }
  }

  /** After a turn that found the issue not ready, the next one starts only when a question was asked and
      then comments were taken in. */
  lemma TriageWaitsForAnswer(t: Trace, j: nat, i: nat)
    requires GateSafe(t) && j < i < |t| && IsNote(t[j], Triaged(false)) && t[i].act.Triage?
    ensures exists a: nat, d: nat :: d < i && AnsweredAt(t, j, a, d)
  {
    hide GatesOf, GateSafe;
    GateSafePrefix(t, i);
    assert t[..i][j] == t[j];
    AnswerCame(t[..i], j);
    var a: nat, d: nat :| AnsweredAt(t[..i], j, a, d);
    assert t[..i][..d] == t[..d];
    assert AnsweredAt(t, j, a, d);
  }

  lemma {:induction false} AnswerCame(t: Trace, j: nat)
    requires GateSafe(t) && j < |t| && IsNote(t[j], Triaged(false)) && GatesOf(t).talk.unready == GatesOf(t).talk.rounds
    ensures exists a: nat, d: nat :: AnsweredAt(t, j, a, d)
  {
    hide GatesOf, GatesAfter, GateAllows;
    var init, e := t[..|t| - 1], t[|t| - 1];
    assert t == init + [e];
    GatesOne(init, e);
    TalkCounted(init);
    TalkCounts(GatesOf(init), e);
    assert j < |init|;
    if GatesOf(init).talk.unready == GatesOf(init).talk.rounds {
      AnswerCame(init, j);
      var a: nat, d: nat :| AnsweredAt(init, j, a, d);
      assert init[..d] == t[..d];
      assert AnsweredAt(t, j, a, d);
    } else {
      QuestionOpen(init, j);
      var a :| j < a < |init| && IsNote(init[a], Asked);
      assert t[..|init|] == init;
      assert AnsweredAt(t, j, a, |init|);
    }
  }

  /** Activities and waits. */
  function Awaits(t: Trace): nat {
    if t == [] then 0 else Awaits(t[..|t| - 1]) + if IsAwait(t[|t| - 1]) then 1 else 0
  }

  lemma {:induction false} AwaitsCounted(t: Trace)
    ensures GatesOf(t).awaits == Awaits(t)
  {
    if t != [] {
      var init, e := t[..|t| - 1], t[|t| - 1];
      assert t == init + [e];
      hide GatesOf;
      GatesOne(init, e);
      AwaitsCounted(init);
    }
  }

  predicate Empties(e: Event<Note>) {
    e.act.Note? && (e.act.note.Opened? || e.act.note.Cleared?)
  }

  /** The slot is empty: whatever was signaled was forgotten later. */
  lemma {:induction false} SlotEmptied(t: Trace, s: nat)
    requires GatesOf(t).slot.None? && s < |t| && t[s].act.Note? && t[s].act.note.Signaled?
    ensures exists c :: s < c < |t| && Empties(t[c])
  {
    hide GatesOf;
    var init, e := t[..|t| - 1], t[|t| - 1];
    assert t == init + [e];
    GatesOne(init, e);
    if Empties(e) {
      assert Empties(t[|init|]) && s < |init|;
    } else {
      assert s < |init| && init[s] == t[s];
      SlotEmptied(init, s);
      var c :| s < c < |init| && Empties(init[c]);
      assert t[c] == init[c];
    }
  }

  /** A wait is for a signal, and the one at s was forgotten when a gate opened or by a revise; or for an
      answer, and no human said anything since comments were last taken in. */
  lemma WaitsForNothing(t: Trace, i: nat, s: nat)
    requires GateSafe(t) && s < i < |t| && IsNote(t[i], Waited) && t[s].act.Note? && t[s].act.note.Signaled?
    ensures (exists c :: s < c < i && Empties(t[c])) || HumanComments(PostedIn(t[LastDrain(t[..i])..i])) == []
  {
    hide GatesOf, GateSafe, PostedIn, HumanComments, LastDrain;
    GateSafePrefix(t, i);
    if GatesOf(t[..i]).slot.None? {
      assert t[..i][s] == t[s];
      SlotEmptied(t[..i], s);
      var c :| s < c < i && Empties(t[..i][c]);
      assert t[c] == t[..i][c];
    } else {
      TalkMeans(t[..i]);
      assert t[..i][LastDrain(t[..i])..] == t[LastDrain(t[..i])..i];
    }
  }

  predicate IsLastTriage(t: Trace, a: int) {
    0 <= a < |t| && t[a].act.Triage? && forall j :: a < j < |t| ==> !t[j].act.Triage?
  }

  /** Once triage accepted the issue the comments taken in are those posted before its last turn
      started; whatever was posted later stays in the queue for good. */
  lemma AcceptedMeans(t: Trace, a: nat)
    requires GateSafe(t) && GatesOf(t).talk.accepted && IsLastTriage(t, a)
    ensures GatesOf(t).talk.taken == HumanComments(PostedIn(t[..a]))
    ensures GatesOf(t).talk.queue == HumanComments(PostedIn(t[a..]))
  {
    hide GatesOf, GateSafe, LastDrain, PostedIn, HumanComments;
    JudgedMeans(t);
    GateSafePrefix(t, a);
    TalkMeans(t);
    TalkMeans(t[..a]);
    var d := LastDrain(t);
    DrainBefore(t, a);
    assert t[..a][..d] == t[..d] && t[..a][d..] == t[d..a] && t[..a] == t[..d] + t[d..a] && t[d..] == t[d..a] + t[a..];
    PostedConcat(t[..d], t[d..a]);
    PostedConcat(t[d..a], t[a..]);
  }

  lemma {:induction false} DrainBefore(t: Trace, a: nat)
    requires LastDrain(t) <= a <= |t|
    ensures LastDrain(t[..a]) == LastDrain(t)
    decreases |t|
  {
    if a == |t| {
      assert t[..a] == t;
    } else {
      DrainBefore(t[..|t| - 1], a);
      assert t[..|t| - 1][..a] == t[..a];
    }
  }

  /** A human posts the comment here. */
  predicate Says(e: Event<Note>, c: Comment) {
    c in HumanComments(PostedBy(e))
  }

  lemma {:induction false} PostedMeans(t: Trace, c: Comment)
    ensures c in HumanComments(PostedIn(t)) <==> exists p :: 0 <= p < |t| && Says(t[p], c)
  {
    if t != [] {
      var init, e := t[..|t| - 1], t[|t| - 1];
      assert t == init + [e];
      PostedOne(init, e);
      PostedMeans(init, c);
      assert forall p :: 0 <= p < |init| ==> t[p] == init[p];
      if Says(e, c) {
        assert Says(t[|init|], c);
      }
    }
  }

  /** A comment unlike any other is stored iff it was there at the start or was posted before the last
      drain. */
  lemma StoredIff(t: Trace, hydrated: seq<Comment>, c: Comment)
    requires forall d :: (d in hydrated || d in HumanComments(PostedIn(t))) && Same(d, c) ==> d == c
    ensures c in Dedup(hydrated + GatesOf(t).talk.taken) <==>
      c in hydrated || exists p :: 0 <= p < LastDrain(t) && Says(t[p], c)
  {
    hide GatesOf, Dedup, Same, HumanComments, PostedIn, Says;
    var d, taken := LastDrain(t), GatesOf(t).talk.taken;
    TalkMeans(t);
    assert t == t[..d] + t[d..];
    PostedConcat(t[..d], t[d..]);
    PostedMeans(t[..d], c);
    DedupExact(hydrated + taken);
    StoredAlone(hydrated + taken, c);
    assert forall p :: 0 <= p < d ==> t[..d][p] == t[p];
  }

  lemma StoredAlone(s: seq<Comment>, c: Comment)
    requires forall d :: d in s && Same(d, c) ==> d == c
    ensures c in Dedup(s) <==> c in s
  {
    hide Dedup, Same;
    DedupExact(s);
  }

  /** For a run whose triage accepted the issue: iff it was there at the start or was posted before the
      last triage turn started. */
  lemma AcceptedStoresIff(t: Trace, a: nat, hydrated: seq<Comment>, c: Comment)
    requires GateSafe(t) && GatesOf(t).talk.accepted && IsLastTriage(t, a)
    requires forall d :: (d in hydrated || d in HumanComments(PostedIn(t))) && Same(d, c) ==> d == c
    ensures c in Dedup(hydrated + GatesOf(t).talk.taken) <==>
      c in hydrated || exists p :: 0 <= p < a && Says(t[p], c)
  {
    hide GatesOf, GateSafe, Dedup, Same, HumanComments, PostedIn, Says;
    AcceptedMeans(t, a);
    assert t == t[..a] + t[a..];
    PostedConcat(t[..a], t[a..]);
    PostedMeans(t[..a], c);
    StoredAlone(hydrated + GatesOf(t).talk.taken, c);
    assert forall p :: 0 <= p < a ==> t[..a][p] == t[p];
  }
}
