/** The controller of an issue run: triage with clarification rounds, planning and design gate, build
    and verify, review and merge gate. It shows its state as labels on the issue and hears humans
    through one signal slot and a queue of comments. A script supplies every await. */
module IssueRun {
  import opened Common
  import opened IssueComments
  import opened PipelineState
  import opened RepairBudget
  import opened Verdict
  import opened RunTrace
  import opened RunInvariant
  import opened IssueLabels
  import opened IssueGates

  const MAX_CLARIFICATION_ROUNDS: nat := 3

  /** An update handled during an await. */
  datatype Arrival = Decided(update: Update) | Posted(comments: seq<Comment>)

  /** One await; `edited` says whether a label edit that raised had taken effect. */
  datatype Await = Await(arrivals: seq<Arrival>, raised: bool, edited: bool, comments: seq<Comment>, ready: bool,
                         plans: Plans, build: BuildReply, evidence: Evidence, fixer: FixerReply)

  /** How the next await ends, and the script after it. */
  function EndOf(script: seq<Await>): Flow {
    if script == [] then Stop(Suspended) else if script[0].raised then Stop(Raised) else Go
  }

  function Rest(script: seq<Await>): seq<Await> {
    if script == [] then [] else script[1..]
  }

  /** The next n planning turns end well and the critic rejects each plan; the script after n turns. */
  predicate Rejects(script: seq<Await>, n: nat) {
    n == 0 ||
    (&& EndOf(script).Go? && EndOf(Rest(script)).Go?
     && !PlanningApproved(Rest(script)[0].plans.decision) && Rejects(Rest(Rest(script)), n - 1))
  }

  function AfterTurns(script: seq<Await>, n: nat): seq<Await> {
    if n == 0 then script else AfterTurns(Rest(Rest(script)), n - 1)
  }

  /** The signal slot after arrivals: the last decision, if any, overwrote it. */
  function SignalAfter(arrivals: seq<Arrival>, slot: Option<Signal>): Option<Signal> {
    if arrivals == [] then slot
    else
      match arrivals[|arrivals| - 1]
      case Decided(u) => Some(SignalOf(u))
      case Posted(_) => SignalAfter(arrivals[..|arrivals| - 1], slot)
  }

  /** What humans say in arrivals. */
  function ToldIn(arrivals: seq<Arrival>): seq<Comment> {
    if arrivals == [] then []
    else
      ToldIn(arrivals[..|arrivals| - 1])
      + match arrivals[|arrivals| - 1] case Decided(_) => [] case Posted(comments) => HumanComments(comments)
  }

  /** What humans say during the next await. */
  function Told(script: seq<Await>): seq<Comment> {
    if script == [] then [] else ToldIn(script[0].arrivals)
  }

  function Heard(script: seq<Await>, slot: Option<Signal>): Option<Signal> {
    if script == [] then slot else SignalAfter(script[0].arrivals, slot)
  }

  /** During the next await, which ends well, somebody decides something. */
  predicate HearsNext(script: seq<Await>) {
    EndOf(script).Go? && Heard(script, None).Some?
  }

  predicate Cancels(arrival: Arrival) {
    arrival.Decided? && SignalOf(arrival.update).kind.Cancel?
  }

  /** Every await of the script ends well, and nobody cancels. */
  ghost predicate Peaceful(script: seq<Await>) {
    forall a :: a in script ==> !a.raised && forall v :: v in a.arrivals ==> !Cancels(v)
  }

  /** The first decision that anybody makes, and how many awaits it takes; one more than there are when
      nobody makes any. */
  function Decision(script: seq<Await>): Option<Signal> {
    if script == [] then None
    else if SignalAfter(script[0].arrivals, None).Some? then SignalAfter(script[0].arrivals, None)
    else Decision(script[1..])
  }

  function DecidedBy(script: seq<Await>): (n: nat)
    ensures 1 <= n <= |script| + 1
  {
    if script == [] || SignalAfter(script[0].arrivals, None).Some? then 1 else 1 + DecidedBy(script[1..])
  }

  lemma DecisionStep(script: seq<Await>)
    ensures DecidedBy(script) <= |script| ==> script != []
    ensures script != [] ==>
      if Heard(script, None).Some? then DecidedBy(script) == 1 && Decision(script) == Heard(script, None)
      else DecidedBy(script) == 1 + DecidedBy(Rest(script)) && Decision(script) == Decision(Rest(script))
  {}

  /** How many awaits it takes until a human says something. */
  function SaidBy(script: seq<Await>): (n: nat)
    ensures 1 <= n <= |script| + 1
  {
    if script == [] || ToldIn(script[0].arrivals) != [] then 1 else 1 + SaidBy(script[1..])
  }

  predicate Approves(signal: Option<Signal>) {
    signal.Some? && signal.value.kind.Approve?
  }

  lemma {:induction false} NoCancelComes(arrivals: seq<Arrival>, slot: Option<Signal>)
    requires forall v :: v in arrivals ==> !Cancels(v)
    requires slot.Some? ==> !slot.value.kind.Cancel?
    ensures var after := SignalAfter(arrivals, slot); after.Some? ==> !after.value.kind.Cancel?
  {
    if arrivals != [] {
      NoCancelComes(arrivals[..|arrivals| - 1], slot);
      assert arrivals[|arrivals| - 1] in arrivals;
    }
  }

  /** The state with another plan. */
  function WithPlan(state: State, plans: Plans): State {
    state.(briefItems := plans.briefItems, spec := plans.spec)
  }

  /** What a run finds that goes well: the first triage turn accepts the issue, the critic lets the first plan
      through, the first decision after that approves it; the build reports nothing and the evidence is clean;
      the first decision after the review approves the merge. The numbers count awaits, the run's reports
      and label edits among them. */
  ghost predicate GoesWell(script: seq<Await>) {
    && |script| > 11 && script[4].ready && PlanningApproved(script[8].plans.decision)
    && Approves(Decision(script[11..])) && DesignBy(script) + 17 <= |script|
    && BuildsWell(WithPlan(INITIAL, script[8].plans), script[DesignBy(script) + 3].build,
                  script[DesignBy(script) + 7].evidence)
    && Approves(Decision(script[DesignBy(script) + 17..])) && MergeBy(script) + 7 <= |script|
  }

  /** Nothing blocks, the build reports nothing, and the evidence is clean. */
  ghost predicate BuildsWell(state: State, build: BuildReply, evidence: Evidence) {
    !Blocked(state) && build.testerFindings == [] && EvidenceClean(MergeBuild(state, build), evidence)
  }

  /** The awaits until the design is decided, and until the merge is. */
  function DesignBy(script: seq<Await>): nat
    requires |script| >= 11
  {
    11 + DecidedBy(script[11..])
  }

  function MergeBy(script: seq<Await>): nat
    requires |script| >= 11 && DesignBy(script) + 17 <= |script|
  {
    DesignBy(script) + 17 + DecidedBy(script[DesignBy(script) + 17..])
  }

  /** The replies of a script name only these packages. */
  ghost predicate ScriptNamed(script: seq<Await>, names: set<string>) {
    script == [] ||
    (RepliesNamed(script[0].plans, script[0].build, script[0].evidence, script[0].fixer, names)
     && ScriptNamed(script[1..], names))
  }

  /** What a run keeps beside the budgets: the trace's verdict is the state's, the trace says whether
      anything blocks a verdict, and verifies come one by one with fixes and human actions. */
  ghost predicate Explained(tally: Tally, gates: Gates, state: State) {
    && (tally.freshness.Unchecked? || tally.freshness.passed == Passed(state))
    && gates.blocked == Blocked(state)
    && tally.verifies <= tally.fixers + 1 + gates.actions
  }

  /** Between two label edits the issue shows one state, or the state that a pre-added final label is
      about to replace. */
  ghost predicate Orderly(labels: set<Label>) {
    || (exists l :: StateLabels(labels) == {l})
    || StateLabels(labels) == {Triaging, NeedsHumanLabel}
    || StateLabels(labels) == {InProgress, Done}
  }

  ghost predicate AllOrderly(edits: seq<set<Label>>) {
    edits == [] || (AllOrderly(edits[..|edits| - 1]) && Orderly(edits[|edits| - 1]))
  }

  lemma OrderlyOne(edits: seq<set<Label>>, labels: set<Label>)
    requires AllOrderly(edits) && Orderly(labels)
    ensures AllOrderly(edits + [labels])
  {
    assert (edits + [labels])[..|edits + [labels]| - 1] == edits;
  }

  /** The label edits of a run and what they left on the issue. */
  datatype Board = Board(labels: set<Label>, edits: seq<set<Label>>)

  ghost predicate Shows(board: Board, l: Label) {
    StateLabels(board.labels) == {l} && AllOrderly(board.edits)
  }

  function Edited(board: Board, labels: set<Label>): Board {
    Board(labels, board.edits + [labels])
  }

  lemma MoveShows(board: Board, from: Label, remove: set<Label>, to: Label)
    requires Shows(board, from) && (from in remove || from == to) && IsState(to) && to !in remove
    ensures Shows(Edited(board, Swapped(board.labels, remove, to)), to)
  {
    SwapMoves(board.labels, remove, from, to);
    OrderlyOne(board.edits, Swapped(board.labels, remove, to));
  }

  lemma QuarantineShows(board: Board, from: Label, closure: Closure)
    requires Shows(board, from) && QuarantineLabelFor(closure).Some?
    ensures Shows(Edited(board, Quarantined(board.labels, closure)), QuarantineLabelFor(closure).value)
  {
    QuarantineTidies(board.labels, closure);
    OrderlyOne(board.edits, Quarantined(board.labels, closure));
  }

  /** Where the gates stand apart from what arrives: the decisions taken, the plans, the builds. */
  ghost predicate Steady(before: Gates, after: Gates) {
    && before.open == after.open && before.designPassed == after.designPassed && before.mergePassed == after.mergePassed
    && before.approved == after.approved && before.lastDesign == after.lastDesign && before.revises == after.revises
    && before.replans == after.replans && before.fixes == after.fixes && before.actions == after.actions
    && (before.blocked ==> after.blocked) && before.canceling == after.canceling && before.built == after.built
    && before.last == after.last && before.hasPlan == after.hasPlan && before.refused == after.refused
  }

  /** Deliveries change the slot and the queue, housekeeping ends a build note, agents may report
      something that blocks; nothing else moves, and nothing leaves the queue. */
  ghost predicate Quiet(before: Gates, after: Gates) {
    && Steady(before, after) && before.talk.queue <= after.talk.queue && before.talk.taken == after.talk.taken
    && before.talk.judged == after.talk.judged && before.talk.accepted == after.talk.accepted
    && Counts(before.talk) == Counts(after.talk)
  }

  /** During triage comments are also taken in. */
  ghost predicate Listened(before: Gates, after: Gates) {
    Steady(before, after)
  }

  /** Nothing is taken in and nothing leaves the queue. */
  ghost predicate Undrained(before: Gates, after: Gates) {
    before.talk.taken == after.talk.taken && before.talk.queue <= after.talk.queue
  }

  lemma QuietMeans(a: Gates, b: Gates)
    requires Quiet(a, b)
    ensures Undrained(a, b) && a.fixes == b.fixes && a.actions == b.actions && (a.blocked ==> b.blocked)
    ensures a.mergePassed == b.mergePassed && a.canceling == b.canceling && a.lastDesign == b.lastDesign
    ensures Listened(a, b) && Counts(a.talk) == Counts(b.talk) && a.talk.taken == b.talk.taken
    ensures a.talk.accepted == b.talk.accepted && a.open == b.open
  {}

  lemma CapMeans(a: Gates, b: Gates)
    requires Quiet(a, b)
    ensures Undrained(a, b) && a.canceling == b.canceling && a.lastDesign == b.lastDesign
    ensures a.refused == b.refused && a.hasPlan == b.hasPlan
  {}

  lemma AskedThen(a: Gates, b: Gates, c: Gates)
    requires Quiet(a, b) && Quiet(b.(talk := b.talk.(asked := true)), c)
    ensures Quiet(a.(talk := a.talk.(asked := true)), c)
  {}

  lemma StillAsked(a: Gates, b: Gates, c: Gates)
    requires Quiet(a.(talk := a.talk.(asked := true)), b) && Quiet(b, c)
    ensures Quiet(a.(talk := a.talk.(asked := true)), c)
  {}

  /** What triage leaves as it was. */
  lemma IntakeMeans(a: Gates, b: Gates)
    requires Listened(a, b)
    ensures a.revises == b.revises && a.designPassed == b.designPassed && a.mergePassed == b.mergePassed
    ensures a.approved == b.approved && a.fixes == b.fixes && a.actions == b.actions && a.canceling == b.canceling
    ensures a.built == b.built && a.hasPlan == b.hasPlan && a.refused == b.refused && a.lastDesign == b.lastDesign
  {}

  lemma PlanningMeans(a: Gates, b: Gates)
    requires Quiet(a, b)
    ensures Listened(a, b) && a.talk.accepted == b.talk.accepted
    ensures a.revises == b.revises && a.designPassed == b.designPassed && a.mergePassed == b.mergePassed
    ensures a.approved == b.approved && a.fixes == b.fixes && a.actions == b.actions && a.canceling == b.canceling
    ensures a.built == b.built && a.hasPlan == b.hasPlan && a.refused == b.refused && a.lastDesign == b.lastDesign
  {}

  lemma AskedMeans(a: Gates, b: Gates)
    requires Quiet(a.(talk := a.talk.(asked := true)), b)
    ensures Listened(a, b) && a.talk.taken == b.talk.taken && Counts(b.talk) == (a.talk.unready, true, a.talk.rounds)
  {}

  lemma ListenedThen(a: Gates, b: Gates, c: Gates)
    requires Listened(a, b) && Listened(b, c)
    ensures Listened(a, c)
  {}

  lemma OpenThen(a: Gates, b: Gates, c: Gates, gate: Gate)
    requires Quiet(a, b) && Quiet(b.(open := Some(gate)), c)
    ensures Quiet(a.(open := Some(gate)), c) && Undrained(a, c)
  {}

  lemma OpeningMeans(a: Gates, b: Gates, gate: Gate)
    requires Quiet(a.(open := Some(gate)), b)
    ensures b.open == Some(gate) && Undrained(a, b) && a.replans == b.replans && a.hasPlan == b.hasPlan
  {}

  lemma OpeningKeeps(a: Gates, b: Gates, gate: Gate)
    requires Quiet(a.(open := Some(gate)), b)
    ensures a.designPassed == b.designPassed && a.mergePassed == b.mergePassed && a.lastDesign == b.lastDesign
    ensures a.approved == b.approved && a.revises == b.revises && a.canceling == b.canceling
    ensures a.talk.accepted == b.talk.accepted && a.fixes == b.fixes && a.actions == b.actions && a.built == b.built
  {}

  lemma ThenBuilt(a: Gates, b: Gates, c: Gates)
    requires Quiet(a.(built := b.built), b) && Quiet(b, c)
    ensures Quiet(a.(built := c.built), c)
  {}

  lemma QuietThen(a: Gates, b: Gates, c: Gates)
    requires Quiet(a, b) && (Quiet(b, c) || Undrained(b, c))
    ensures Undrained(a, c) && (Quiet(b, c) ==> Quiet(a, c))
  {}

  lemma BuiltThen(a: Gates, b: Gates, c: Gates)
    requires Quiet(a, b) && Quiet(b.(built := c.built), c)
    ensures Quiet(a.(built := c.built), c) && Undrained(a, c) && a.fixes == c.fixes && a.actions == c.actions
  {}

  lemma Unmoved(g: Gates)
    ensures Quiet(g, g) && Undrained(g, g) && Drafted(g, g)
  {}

  lemma UndrainedThen(a: Gates, b: Gates, c: Gates)
    requires Undrained(a, b)
    ensures Undrained(b, c) || Quiet(b, c) ==> Undrained(a, c)
  {}

  /** Planning changes which plan there is and how many were refused, and otherwise only what arrives. */
  ghost predicate Drafted(before: Gates, after: Gates) {
    Quiet(before.(hasPlan := after.hasPlan, refused := after.refused), after)
  }

  lemma DraftedMeans(a: Gates, b: Gates)
    requires Drafted(a, b)
    ensures Undrained(a, b) && a.lastDesign == b.lastDesign && a.replans == b.replans
  {}

  lemma DraftedThen(a: Gates, b: Gates, c: Gates)
    requires Drafted(a, b) && Drafted(b, c)
    ensures Drafted(a, c)
  {}

  /** What came before stays done. */
  ghost predicate Keeps(before: Tally, after: Tally) {
    (before.built ==> after.built) && (before.proposed ==> after.proposed) && after.merges == before.merges
  }

  /** Turns that found the issue not ready, whether a question is open, and the questions answered. */
  ghost function Counts(talk: Talk): (nat, bool, nat) {
    (talk.unready, talk.asked, talk.rounds)
  }

  ghost function Answered(talk: Talk): (nat, bool, nat) {
    (talk.unready, false, talk.rounds + 1)
  }

  ghost predicate StrayLast(g: Gates) {
    g.lastDesign.Some? && Stray(g.lastDesign.value)
  }

  /** What a planning cap leaves: one label, or two after a stray signal at the design gate. */
  ghost predicate CapShows(board: Board, stray: bool) {
    && StateLabels(board.labels) == (if stray then {AwaitingApproval, NeedsHumanLabel} else {NeedsHumanLabel})
    && (!stray ==> AllOrderly(board.edits))
  }

  lemma CapSwap(board: Board, shown: Label)
    requires Shows(board, shown) && (shown.Designing? || shown.AwaitingApproval?)
    ensures CapShows(Edited(board, Swapped(board.labels, {Designing}, NeedsHumanLabel)), shown.AwaitingApproval?)
  {
    var after := Swapped(board.labels, {Designing}, NeedsHumanLabel);
    SwapMoves(board.labels, {Designing}, shown, NeedsHumanLabel);
    if shown.Designing? {
      OrderlyOne(board.edits, after);
    }
  }

  lemma AddShows(board: Board, from: Label, to: Label)
    requires Shows(board, from) && IsState(to)
    requires (from, to) in {(Triaging, NeedsHumanLabel), (InProgress, Done)}
    ensures StateLabels(board.labels + {to}) == {from, to}
    ensures AllOrderly(board.edits + [board.labels + {to}])
  {
    var after := board.labels + {to};
    forall l ensures l in StateLabels(after) <==> l == from || l == to {
      assert l in StateLabels(board.labels) <==> l == from;
    }
    OrderlyOne(board.edits, after);
  }

  lemma FinishShows(labels: set<Label>, from: Label, to: Label)
    requires StateLabels(labels) == {from, to} && from != to && IsState(to)
    ensures StateLabels(Swapped(labels, {from}, to)) == {to}
  {
    var after := Swapped(labels, {from}, to);
    forall l ensures l in StateLabels(after) <==> l == to {
      assert l in StateLabels(labels) <==> l == from || l == to;
    }
  }

  /** Storing the queue is one more batch of the same dedup. */
  lemma AbsorbOne(hydrated: seq<Comment>, drained: seq<Comment>, queue: seq<Comment>)
    ensures Dedup(Dedup(hydrated + drained) + queue) == Dedup(hydrated + (drained + queue))
    ensures Dedup(hydrated + drained) <= Dedup(hydrated + (drained + queue))
  {
    DedupStreams(hydrated + drained, queue);
    DedupGrows(hydrated + drained, queue);
    assert hydrated + drained + queue == hydrated + (drained + queue);
  }

  const BLANK := Plans([], [], None)

  /** A plan in the state changes no verdict and no budget. */
  lemma PlansKeep(state: State, plans: Plans)
    ensures var after := WithPlan(state, plans);
      && Passed(after) == Passed(state) && Blocked(after) == Blocked(state)
      && forall limit :: WithinBudget(after, limit) == WithinBudget(state, limit)
  {}

  /** A merged build blocks iff the state did or it reported a tester finding. */
  lemma BuildBlocks(state: State, reply: BuildReply)
    ensures Blocked(MergeBuild(state, reply)) <==> Blocked(state) || reply.testerFindings != []
  {}

  /** A merged fixer turn blocks iff the state did or it reported a blocking finding. */
  lemma FixerBlocks(state: State, reply: FixerReply)
    ensures Blocked(MergeFixer(state, reply)) <==> Blocked(state) || AnyBlocking(reply.recon)
  {
    assert forall f :: f in MergeFixer(state, reply).reconFindings <==> f in state.reconFindings || f in reply.recon;
  }

  /** The activities between setup and teardown but the verify, whose verdict is about a new state. */
  predicate Plain(act: Act<Note>) {
    !act.Setup? && !act.Teardown? && !act.Verify? && !act.Note?
  }

  /** Such an activity, in its place and within its budget, keeps the invariants. */
  lemma PlainKeeps(tally: Tally, before: Gates, after: Gates, state: State, act: Act<Note>, ok: bool)
    requires Sound(tally, before.fixes, before.replans, state) && Explained(tally, before, state) && Plain(act)
    requires Allowed(tally.Stage(), act) && before.blocked == after.blocked
    requires before.fixes == after.fixes && before.replans == after.replans && before.actions == after.actions
    requires act.Fixer? ==> tally.fixers < Total(state.attemptsByWp)
    requires act.Discovery? ==> tally.discoveries < PLANNING_MAX_ATTEMPTS * (1 + before.replans)
    ensures var next := TallyAfter(tally, Event(act, ok));
      && Sound(next, after.fixes, after.replans, state) && Explained(next, after, state)
      && next.setUp == tally.setUp && next.tornDown == tally.tornDown && next == next.(safe := tally.safe)
      && next.triages == tally.triages + (if act.Triage? then 1 else 0)
      && next.merges == tally.merges + (if act.MergeBranch? then 1 else 0)
  {
    hide Blocked, Passed, Total, WithinBudget;
  }

  lemma QuietActs(g: Gates, act: Act<Note>, ok: bool, after: Gates)
    requires Quiet(ActAfter(g, act, ok), after)
    ensures g.fixes == after.fixes && g.replans == after.replans && g.actions == after.actions
    ensures !act.Build? && !act.Triage? ==> Quiet(g, after)
  {}

  /** A verify whose result is `after` keeps them too. */
  lemma VerdictKeeps(tally: Tally, before: Gates, now: Gates, state: State, after: State, ok: bool)
    requires tally.setUp && !tally.tornDown && tally.built && tally.verifies <= tally.fixers + before.actions
    requires Explained(tally, before, state) && Blocked(after) == Blocked(state) && before.blocked == now.blocked
    requires before.fixes == now.fixes && before.replans == now.replans && before.actions == now.actions
    requires var next := TallyAfter(tally, Event(Act<Note>.Verify(Passed(after)), ok));
      Sound(next, before.fixes, before.replans, if ok then after else state)
    ensures var next := TallyAfter(tally, Event(Act<Note>.Verify(Passed(after)), ok));
      && Sound(next, now.fixes, now.replans, if ok then after else state)
      && Explained(next, now, if ok then after else state)
      && next.setUp && !next.tornDown && next.triages == tally.triages && next == next.(safe := tally.safe)
  {
    hide Blocked, Passed;
  }

  /** A triage turn or a build, and what arrived meanwhile. */
  lemma TriageSteps(tally: Tally, g: Gates, ok: bool, after: Gates)
    requires Quiet(ActAfter(g, Triage, ok), after)
    ensures Listened(g, after) && after.talk.taken == g.talk.taken && after.talk.accepted == g.talk.accepted
    ensures Counts(after.talk) == Counts(g.talk) && after.talk.judged == ok
    ensures TallyAfter(tally, Event(Act<Note>.Triage, ok)).(safe := tally.safe) ==
      tally.(triages := tally.triages + 1)
  {}

  lemma BuildSteps(tally: Tally, g: Gates, ok: bool, after: Gates)
    requires Quiet(ActAfter(g, Act.Build, ok), after)
    ensures Quiet(g.(built := true), after)
    ensures TallyAfter(tally, Event(Act<Note>.Build, ok)).(safe := tally.safe) ==
      tally.(freshness := Unchecked, built := tally.built || ok)
  {}

  lemma BlankTrace()
    ensures TallyOf<Note>([]) == START && GatesOf([]) == CLOSED && Blocked(INITIAL) == CLOSED.blocked
  {}

  lemma BlankIsSound(ok: bool)
    ensures TallyAfter(START, Event(Act<Note>.Setup, ok)) == START.(setUp := ok)
    ensures Sound(TallyAfter(START, Event(Act<Note>.Setup, ok)), 0, 0, INITIAL) && Sound(START, 0, 0, INITIAL)
  {
    assert Total(map[]) == 0;
  }

  function KindName(kind: Kind): string {
    match kind
    case Approve => "Approve"
    case Revise => "Revise"
    case Reject => "Reject"
    case Cancel => "Cancel"
    case Fix => "Fix"
    case Rebuild => "Rebuild"
  }

  function ReasonOf(signal: Signal): string {
    if signal.text != "" then signal.text else KindName(signal.kind)
  }

  function CancelReason(signal: Signal): string {
    if signal.text != "" then signal.text else "canceled"
  }

  /** The merge gate took a rejection, and for its reason. */
  predicate RejectedBy(last: Option<Taking>, reason: string) {
    last.Some? && last.value.AtGate? && last.value.gate.Merge?
    && last.value.signal.kind.Reject? && reason == ReasonOf(last.value.signal)
  }

  /** A gate took a cancel, or the design gate a rejection, or a check found a cancel. */
  predicate CanceledBy(last: Option<Taking>, reason: string) {
    last.Some? &&
    match last.value
    case AtGate(gate, signal) =>
      (signal.kind.Cancel? || (gate.Design? && signal.kind.Reject?)) && reason == ReasonOf(signal)
    case AtCheck(signal) => signal.kind.Cancel? && reason == CancelReason(signal)
  }

  /** Why the repair loop gives a run to a human; it does not ask the tester. */
  ghost predicate HandsOver(freshness: Freshness, state: State, reason: string) {
    match freshness
    case Verified(passed) => !passed && reason == "fixer_budget_exhausted" && UsedUp(state)
    case Unchecked => GivesUp(state, reason)
    case Reviewed(_) => false
  }

  class IssueRun {
    var approvalSignal: Option<Signal>
    var newComments: seq<Comment>
    var issueComments: seq<Comment>
    var state: State
    var plans: Plans
    var latestSpecRev: nat
    var approvedSpecRev: Option<nat>
    var approvedSpecMarkdown: Option<string>
    var currentLabel: Label
    var labels: set<Label>
    var markerPosted: bool
    var script: seq<Await>
    const render: Plans -> string
    const canQuarantine: bool
    ghost const tidy: bool
    ghost const names: set<string>
    ghost const named: bool
    ghost var ran: Trace
    ghost var edits: seq<set<Label>>
    ghost var hydrated: seq<Comment>
    ghost var raised: bool
    ghost const all: seq<Await>
    ghost const peaceful: bool

    /** `render` renders a plan as text. `names` is any set of package names; `named` says whether the
        script keeps to it, `tidy` whether the issue starts with exactly the ready label, `peaceful` whether
        every await ends well and nobody cancels. */
    constructor (script: seq<Await>, render: Plans -> string, labels: set<Label>, canQuarantine: bool,
                 ghost names: set<string>)
      ensures this.script == script && ran == [] && state == INITIAL && Latched() && approvalSignal == None
      ensures this.labels == labels && edits == [] && currentLabel == Ready && latestSpecRev == 1
      ensures this.canQuarantine == canQuarantine && this.render == render && this.names == names
      ensures tidy <==> StateLabels(labels) == {Ready}
      ensures named <==> ScriptNamed(script, names) && UNKNOWN_FIXER_TARGET in names
      ensures hydrated == [] && newComments == [] && issueComments == []
      ensures all == script && !raised && (peaceful <==> Peaceful(script))
    {
      approvalSignal, newComments, issueComments := None, [], [];
      state, plans, latestSpecRev := INITIAL, Plans([], [], None), 1;
      approvedSpecRev, approvedSpecMarkdown := None, None;
      currentLabel, this.labels, markerPosted := Ready, labels, false;
      this.script, this.render, this.canQuarantine := script, render, canQuarantine;
      tidy, ran, edits, hydrated := StateLabels(labels) == {Ready}, [], [], [];
      this.names, named := names, ScriptNamed(script, names) && UNKNOWN_FIXER_TARGET in names;
      all, raised, peaceful := script, false, Peaceful(script);
    }

    // ---------- Invariants ----------

    /** The trace explains the slot, the queue and the comments stored, which are one batch dedup of
        what hydration found and all that was taken in since, and its gate events were all in order. */
    ghost predicate Synced()
      reads `approvalSignal, `newComments, `issueComments, `hydrated, `ran
    {
      && GateSafe(ran) && G().slot == approvalSignal
      && newComments == G().talk.queue && issueComments == Dedup(hydrated + G().talk.taken)
    }

    /** The script is what is left of the whole one, and `raised` says whether an await that is over
        raised. */
    ghost predicate Consumed()
      reads `script, `raised
    {
      && |script| <= |all| && script == all[|all| - |script|..]
      && (raised <==> exists k :: 0 <= k < |all| - |script| && all[k].raised)
    }

    ghost predicate Calm()
      reads `approvalSignal
    {
      peaceful ==> Peaceful(all) && !CancelRequested()
    }

    ghost predicate Latched()
      reads `approvalSignal, `newComments, `issueComments, `hydrated, `ran, `script, `raised
    {
      Synced() && Consumed() && Calm() && Counted(0)
    }

    /** The trace accounts for every await: each is an activity or a wait outside one. `ahead` are recorded
        and not over yet. */
    ghost predicate Counted(ahead: nat)
      reads `ran, `script
    {
      |all| - |script| + ahead == G().awaits
    }

    lemma PeacefulNext()
      requires Consumed() && Calm() && peaceful && script != []
      ensures !script[0].raised
      ensures !CancelLatchedIn(SignalAfter(script[0].arrivals, approvalSignal))
    {
      assert script[0] == all[|all| - |script|];
      NoCancelComes(script[0].arrivals, approvalSignal);
    }

    predicate CancelLatchedIn(slot: Option<Signal>) {
      slot.Some? && slot.value.kind.Cancel?
    }

    predicate CancelRequested()
      reads `approvalSignal
    {
      CancelLatchedIn(approvalSignal)
    }

    /** The tally of the trace so far; the name is short because every contract below needs it. */
    ghost function T(): Tally
      reads `ran
    {
      TallyOf(ran)
    }

    /** Where the gates stand after the trace so far. */
    ghost function G(): Gates
      reads `ran
    {
      GatesOf(ran)
    }

    /** A script that keeps to its names charges nobody else. */
    ghost predicate Bounded()
      reads `state, `script
    {
      named ==> EvidenceNamed(state, names) && ScriptNamed(script, names)
    }

    /** What holds between any two awaits from setup to teardown. */
    ghost predicate Base()
      reads `approvalSignal, `newComments, `issueComments, `hydrated, `ran, `state, `script, `raised
    {
      && Latched() && Sound(T(), G().fixes, G().replans, state)
      && T().setUp && !T().tornDown && T().triages <= 1 + MAX_CLARIFICATION_ROUNDS
      && Explained(T(), G(), state) && Bounded()
    }

    /** The issue shows exactly the label the run believes it set. */
    ghost predicate InStep(l: Label)
      reads `currentLabel, `labels, `edits
    {
      currentLabel == l && (tidy ==> Shows(Board(labels, edits), l))
    }

    // ---------- Updates ----------

    /** Adds one event to the trace. */
    ghost method Record(e: Event<Note>)
      requires GateSafe(ran) && GateAllows(G(), e.act)
      modifies this`ran
      ensures ran == old(ran) + [e] && GateSafe(ran)
      ensures T() == TallyAfter(old(T()), e) && G() == GatesAfter(old(G()), e)
      ensures e.act.Note? && e.ok ==> T() == old(T())
    {
      hide GatesAfter, GateAllows;
      TallyOne(ran, e);
      GatesOne(ran, e);
      ran := ran + [e];
    }

    /** An update that carries a decision overwrites the slot. */
    method Decide(u: Update)
      requires Synced()
      modifies this`approvalSignal, this`ran
      ensures Synced() && ran == old(ran) + [Noted(Signaled(SignalOf(u)))] && approvalSignal == Some(SignalOf(u))
      ensures T() == old(T()) && Quiet(old(G()), G()) && G().blocked == old(G()).blocked
      ensures G().awaits == old(G()).awaits
    {
      hide TallyOf, TallyAfter, GatesOf, GatesAfter, GateSafe, Dedup, SignalOf;
      SignaledGates(G(), SignalOf(u));
      Record(Noted(Signaled(SignalOf(u))));
      approvalSignal := Some(SignalOf(u));
    }

    /** `post_new_comments`: human comments are queued, markers are not. */
    method PostNewComments(comments: seq<Comment>)
      requires Synced()
      modifies this`newComments, this`ran
      ensures Synced() && ran == old(ran) + [Noted(Said(comments))]
      ensures newComments == old(newComments) + HumanComments(comments)
      ensures T() == old(T()) && Quiet(old(G()), G()) && G().blocked == old(G()).blocked
      ensures G().awaits == old(G()).awaits
    {
      hide TallyOf, TallyAfter, GatesOf, GatesAfter, GateSafe, Dedup, HumanComments;
      SaidGates(G(), comments);
      Record(Noted(Said(comments)));
      newComments := newComments + HumanComments(comments);
    }

    method Deliver(arrivals: seq<Arrival>)
      requires Synced()
      modifies this`approvalSignal, this`ran, this`newComments
      ensures Synced() && T() == old(T()) && Quiet(old(G()), G()) && G().blocked == old(G()).blocked
      ensures G().awaits == old(G()).awaits
      ensures approvalSignal == SignalAfter(arrivals, old(approvalSignal))
      ensures newComments == old(newComments) + ToldIn(arrivals)
    {
      hide TallyOf, GatesOf, GateSafe, Dedup, HumanComments;
      for n := 0 to |arrivals|
        invariant Synced() && T() == old(T()) && Quiet(old(G()), G()) && G().blocked == old(G()).blocked
        invariant G().awaits == old(G()).awaits
        invariant approvalSignal == SignalAfter(arrivals[..n], old(approvalSignal))
        invariant newComments == old(newComments) + ToldIn(arrivals[..n])
      {
        assert arrivals[..n + 1][..n] == arrivals[..n];
        match arrivals[n]
        case Decided(u) => Decide(u);
        case Posted(comments) => PostNewComments(comments);
      }
      assert arrivals[..|arrivals|] == arrivals;
    }

    // ---------- Awaits ----------

    /** Notes a gate event; opening a gate or clearing empties the slot. */
    method Mark(note: Note)
      requires Latched() && NoteAllowed(G(), note) && !note.Signaled? && !note.Said? && !note.Drained? && !note.Waited?
      modifies this`approvalSignal, this`ran
      ensures Latched() && T() == old(T()) && G() == GatesAfter(old(G()), Noted(note))
      ensures approvalSignal == if note.Opened? || note.Cleared? then None else old(approvalSignal)
    {
      hide TallyOf, TallyAfter, GatesOf, GatesAfter, GateSafe, Dedup, Consumed, Peaceful;
      MarkedGates(G(), note);
      Record(Noted(note));
      if note.Opened? || note.Cleared? {
        approvalSignal := None;
      }
    }

    /** One await is over, and what arrived meanwhile was handled. */
    method Receive() returns (flow: Flow)
      requires Synced() && Consumed() && Calm() && Counted(1) && script != []
      modifies this`approvalSignal, this`ran, this`newComments, this`script, this`raised
      ensures flow == EndOf(old(script)) && script == Rest(old(script))
      ensures raised == (old(raised) || flow == Stop(Raised))
      ensures approvalSignal == Heard(old(script), old(approvalSignal))
      ensures newComments == old(newComments) + Told(old(script))
      ensures Latched() && T() == old(T()) && Quiet(old(G()), G()) && G().blocked == old(G()).blocked
      ensures peaceful ==> flow.Go?
    {
      hide TallyOf, GatesOf, GateSafe, Dedup, HumanComments, SignalAfter, ToldIn, Quiet, Peaceful;
      if peaceful {
        PeacefulNext();
      }
      var step := script[0];
      Deliver(step.arrivals);
      script := script[1..];
      raised := raised || step.raised;
      flow := if step.raised then Stop(Raised) else Go;
    }

    /** A wait outside any activity. */
    method Wait() returns (flow: Flow)
      requires Latched() && script != [] && NoteAllowed(G(), Waited)
      modifies this`approvalSignal, this`ran, this`newComments, this`script, this`raised
      ensures flow == EndOf(old(script)) && script == Rest(old(script))
      ensures raised == (old(raised) || flow == Stop(Raised))
      ensures approvalSignal == Heard(old(script), old(approvalSignal))
      ensures newComments == old(newComments) + Told(old(script))
      ensures Latched() && T() == old(T()) && Quiet(old(G()), G()) && G().blocked == old(G()).blocked
      ensures peaceful ==> flow.Go?
    {
      hide TallyOf, TallyAfter, GatesOf, GatesAfter, GateSafe, Dedup, HumanComments, SignalAfter, ToldIn,
           Consumed, Calm;
      WaitedGates(G());
      Record(Noted(Waited));
      flow := Receive();
    }

    /** An activity: the trace records it, and what arrives meanwhile is handled. Without a next await
        in the script the run stays suspended. */
    method Activity(act: Act<Note>) returns (flow: Flow)
      requires Latched() && GateAllows(G(), act) && !act.Note?
      modifies this`approvalSignal, this`ran, this`newComments, this`script, this`raised
      ensures flow == EndOf(old(script)) && script == Rest(old(script))
      ensures raised == (old(raised) || flow == Stop(Raised))
      ensures peaceful && old(script) != [] ==> flow.Go?
      ensures approvalSignal == Heard(old(script), old(approvalSignal))
      ensures newComments == old(newComments) + Told(old(script))
      ensures Latched() && G().blocked == old(G()).blocked
      ensures if flow == Stop(Suspended) then G() == old(G()) else Quiet(ActAfter(old(G()), act, flow.Go?), G())
      ensures T() == if flow == Stop(Suspended) then old(T()) else TallyAfter(old(T()), Event(act, flow.Go?))
    {
      hide TallyOf, TallyAfter, GatesOf, GatesAfter, GateSafe, Dedup, HumanComments, SignalAfter, ToldIn,
           Consumed, Calm, Quiet;
      if script == [] {
        return Stop(Suspended);
      }
      ActGates(G(), act, !script[0].raised);
      Record(Event(act, !script[0].raised));
      flow := Receive();
    }

    /** Such an activity, in its place and within its budget. */
    method Step(act: Act<Note>) returns (flow: Flow)
      requires Base() && !raised && Plain(act) && GateAllows(G(), act)
      requires Allowed(T().Stage().(setUp := true, tornDown := false), act)
      requires act.Fixer? ==> T().fixers < Total(state.attemptsByWp)
      requires act.Discovery? ==> T().discoveries < PLANNING_MAX_ATTEMPTS * (1 + G().replans)
      requires act.Triage? ==> T().triages <= MAX_CLARIFICATION_ROUNDS
      modifies this`approvalSignal, this`ran, this`newComments, this`script, this`raised
      ensures flow == EndOf(old(script)) && script == Rest(old(script)) && (raised <==> flow == Stop(Raised))
      ensures peaceful && old(script) != [] ==> flow.Go?
      ensures approvalSignal == Heard(old(script), old(approvalSignal))
      ensures newComments == old(newComments) + Told(old(script))
      ensures Base() && G().blocked == old(G()).blocked
      ensures if flow == Stop(Suspended) then G() == old(G()) else Quiet(ActAfter(old(G()), act, flow.Go?), G())
      ensures !act.Build? && !act.Triage? ==> Quiet(old(G()), G())
      ensures !act.MergeBranch? ==> T().merges == old(T()).merges
      ensures T() == if flow == Stop(Suspended) then old(T())
                     else TallyAfter(old(T()), Event(act, flow.Go?)).(safe := old(T()).safe)
    {
      hide TallyOf, TallyAfter, GatesOf, GateSafe, GateAllows, Latched, EvidenceNamed, RepliesNamed, Heard, Told,
           Sound, Explained, Total;
      flow := Activity(act);
      if flow != Stop(Suspended) {
        QuietActs(old(G()), act, flow.Go?, G());
        PlainKeeps(old(T()), old(G()), G(), state, act, flow.Go?);
      }
    }

    /** A phase comment, a clarification comment: an await that changes nothing here. */
    method Phase() returns (flow: Flow)
      requires Base() && !raised
      modifies this`approvalSignal, this`ran, this`newComments, this`script, this`raised
      ensures flow == EndOf(old(script)) && script == Rest(old(script)) && (raised <==> flow == Stop(Raised))
      ensures peaceful && old(script) != [] ==> flow.Go?
      ensures approvalSignal == Heard(old(script), old(approvalSignal))
      ensures newComments == old(newComments) + Told(old(script))
      ensures Base() && T() == old(T()) && Quiet(old(G()), G())
      ensures InStep(currentLabel) ==> Stopped(flow)
    {
      hide Base, Stopped, Left, TallyOf, GatesOf, Heard, Told;
      flow := Step(Housekeeping);
      if InStep(currentLabel) {
        StopsEarly(flow);
      }
    }

    // ---------- Labels ----------

    /** The await of a label edit; an edit that raised may have taken effect. */
    method EditAwait() returns (flow: Flow, edited: bool)
      requires Base() && !raised
      modifies this`approvalSignal, this`ran, this`newComments, this`script, this`raised
      ensures flow == EndOf(old(script)) && script == Rest(old(script)) && (raised <==> flow == Stop(Raised))
      ensures peaceful && old(script) != [] ==> flow.Go?
      ensures approvalSignal == Heard(old(script), old(approvalSignal))
      ensures newComments == old(newComments) + Told(old(script))
      ensures Base() && T() == old(T()) && Quiet(old(G()), G())
      ensures edited == (old(script) != [] && (!old(script)[0].raised || old(script)[0].edited))
    {
      hide Base, TallyOf, GatesOf, Heard, Told;
      edited := script != [] && (!script[0].raised || script[0].edited);
      flow := Step(Housekeeping);
    }

    /** `_swap_label`: the edit, and on success the label the run believes is shown. */
    method SwapLabel(remove: set<Label>, add: Label) returns (flow: Flow, ghost edited: bool)
      requires Base() && !raised
      modifies this`approvalSignal, this`ran, this`newComments, this`script, this`raised, this`labels, this`edits,
               this`currentLabel
      ensures flow == EndOf(old(script)) && script == Rest(old(script)) && (raised <==> flow == Stop(Raised))
      ensures peaceful && old(script) != [] ==> flow.Go?
      ensures approvalSignal == Heard(old(script), old(approvalSignal))
      ensures newComments == old(newComments) + Told(old(script))
      ensures Base() && T() == old(T()) && Quiet(old(G()), G())
      ensures flow.Go? ==> edited
      ensures currentLabel == if flow.Go? then add else old(currentLabel)
      ensures labels == if edited then Swapped(old(labels), remove, add) else old(labels)
      ensures edits == if edited then old(edits) + [labels] else old(edits)
    {
      hide Base, T, G, Heard;
      var took;
      flow, took := EditAwait();
      edited := took;
      if took {
        labels := SwapLabels(labels, remove, add);
        edits := edits + [labels];
      }
      if flow.Go? {
        currentLabel := add;
      }
    }

    /** A swap that takes off the label the issue shows. */
    method MoveLabel(ghost from: Label, remove: set<Label>, to: Label) returns (flow: Flow)
      requires Base() && !raised && InStep(from) && (from in remove || from == to) && IsState(to) && to !in remove
      modifies this`approvalSignal, this`ran, this`newComments, this`script, this`raised, this`labels, this`edits,
               this`currentLabel
      ensures flow == EndOf(old(script)) && script == Rest(old(script)) && (raised <==> flow == Stop(Raised))
      ensures peaceful && old(script) != [] ==> flow.Go?
      ensures approvalSignal == Heard(old(script), old(approvalSignal))
      ensures newComments == old(newComments) + Told(old(script))
      ensures Base() && T() == old(T()) && Quiet(old(G()), G())
      ensures flow.Go? ==> InStep(to)
      ensures tidy ==> AllOrderly(edits)
      ensures Stopped(flow)
    {
      if tidy {
        MoveShows(Board(labels, edits), from, remove, to);
      }
      ghost var edited;
      flow, edited := SwapLabel(remove, to);
    }

    /** `_quarantine`, when the issue can be named: labels say how the run closed. */
    method Quarantine(closure: Closure) returns (flow: Flow)
      requires Base() && !raised && QuarantineLabelFor(closure).Some? && InStep(currentLabel)
      modifies this`approvalSignal, this`ran, this`newComments, this`script, this`raised, this`labels, this`edits,
               this`markerPosted
      ensures raised <==> flow == Stop(Raised)
      ensures flow in {Go, Stop(Raised), Stop(Suspended)}
      ensures Base() && T() == old(T()) && Quiet(old(G()), G())
      ensures tidy ==> AllOrderly(edits)
      ensures flow.Go? && tidy ==>
        StateLabels(labels) == {if canQuarantine then QuarantineLabelFor(closure).value else currentLabel}
      ensures flow == Stop(Suspended) ==> script == []
      ensures flow.Go? && canQuarantine ==> markerPosted
    {
      hide Base, T, G, StateLabels, Quarantined, AllOrderly;
      if !canQuarantine {
        return Go;
      }
      if tidy {
        QuarantineShows(Board(labels, edits), currentLabel, closure);
      }
      var took;
      flow, took := EditAwait();
      if took {
        labels := QuarantineLabels(labels, closure);
        edits := edits + [labels];
      }
      markerPosted := markerPosted || flow.Go?;
    }

    /** The label a finished run leaves on the issue. */
    function FinalLabel(status: Status): Label {
      match status
      case Merged => Done
      case Abandoned | NeedsHuman => NeedsHumanLabel
      case Canceled => CanceledLabel
      case Rejected => if canQuarantine then FailedLabel else CanceledLabel
    }

    /** How a stopped run leaves the issue. A planning cap after a fix or rebuild signal at the design
        gate is the one ending that leaves two state labels. */
    ghost predicate Left(ending: Ending)
      reads `labels, `edits, `ran
    {
      && (!StrayLast(G()) ==> AllOrderly(edits))
      && (ending.Finished? ==>
            StateLabels(labels) ==
              if ending == Finished(NeedsHuman, "planning_retry_cap") && StrayLast(G())
              then {AwaitingApproval, NeedsHumanLabel} else {FinalLabel(ending.status)})
    }

    /** A finished run found a cancel iff it ended canceled and not by a rejected design. */
    ghost predicate Canceled(ending: Ending)
      requires ending.Finished?
      reads `ran
    {
      G().canceling <==> ending.status.Canceled? && G().lastDesign != Some(Reject)
    }

    /** Why a run may finish as it does: merged; by the signal it took last, which rejected or canceled it, and
        for its reason; abandoned after four turns that found the issue not ready and three answered rounds;
        given to a human after five refused plans, or by the repair loop, after a failed verdict because what
        would be charged has used its attempts up and after a fixer turn because the fixer gives up. */
    ghost predicate Earned(ending: Ending)
      requires ending.Finished?
      reads `ran, `state
    {
      match ending.status
      case Merged => G().mergePassed && ending.reason == ""
      case Rejected => RejectedBy(G().last, ending.reason)
      case Canceled => CanceledBy(G().last, ending.reason)
      case Abandoned =>
        && ending.reason == "max_clarification_rounds" && T().triages == 1 + MAX_CLARIFICATION_ROUNDS
        && G().talk.unready == 1 + MAX_CLARIFICATION_ROUNDS && G().talk.rounds == MAX_CLARIFICATION_ROUNDS
        && !G().talk.accepted
      case NeedsHuman =>
        || (ending.reason == "planning_retry_cap" && G().refused == PLANNING_MAX_ATTEMPTS && !G().hasPlan)
        || (G().designPassed && G().actions == 0 && HandsOver(T().freshness, state, ending.reason))
    }

    /** What every stop guarantees. */
    ghost predicate Stopped(flow: Flow)
      reads `approvalSignal, `newComments, `issueComments, `hydrated, `ran, `state, `labels,
            `edits, `script, `markerPosted, `raised
    {
      flow.Stop? ==>
        && Base() && (tidy ==> Left(flow.ending))
        && (flow.ending.Finished? ==> Earned(flow.ending))
        && (flow.ending.Suspended? ==> script == [])
        && (flow.ending.Finished? ==> T().merges == if flow.ending.status.Merged? then 1 else 0)
        && (flow.ending.Finished? ==> Canceled(flow.ending))
        && (Merging(flow) ==> T().freshness == Reviewed(Passed(state)) && (G().actions == 0 ==> Passed(state)))
        && (flow.ending.Finished? && (flow.ending.status.Canceled? || flow.ending.status.Rejected?) && canQuarantine ==>
              markerPosted)
    }

    /** A run that stops without a result leaves the labels as they are. */
    lemma StopsEarly(flow: Flow)
      requires Base() && flow in {Go, Stop(Raised), Stop(Suspended)} && (flow == Stop(Suspended) ==> script == [])
      requires tidy ==> AllOrderly(edits)
      ensures Stopped(flow)
    {
      hide Base;
    }

    /** A run that comes to a result with the label that says so on the issue. */
    lemma Finishes(status: Status, reason: string)
      requires Base() && Earned(Finished(status, reason)) && Canceled(Finished(status, reason))
      requires T().merges == if status.Merged? then 1 else 0
      requires tidy ==> AllOrderly(edits) && StateLabels(labels) == {FinalLabel(status)}
      requires reason != "planning_retry_cap" || !status.NeedsHuman?
      requires status.Merged? ==> T().freshness == Reviewed(Passed(state)) && (G().actions == 0 ==> Passed(state))
      requires (status.Canceled? || status.Rejected?) && canQuarantine ==> markerPosted
      ensures Stopped(Stop(Finished(status, reason)))
    {
      hide Base, Earned, Canceled;
    }

    /** A planning cap, with the labels it leaves. */
    lemma CapFinishes()
      requires Base() && T().merges == 0 && G().refused == PLANNING_MAX_ATTEMPTS && !G().hasPlan && !G().canceling
      requires tidy ==> CapShows(Board(labels, edits), StrayLast(G()))
      ensures Stopped(Stop(Finished(NeedsHuman, "planning_retry_cap")))
    {
      hide Base;
    }

    lemma Unstopped(flow: Flow)
      requires flow.Go?
      ensures Stopped(flow)
    {}

    lemma StaysIn(flow: Flow)
      requires Base() && InStep(currentLabel) && flow.Go?
      ensures Stopped(flow)
    {}

    // ---------- Cancellation and comments ----------

    /** The label shown at the end: canceled, or what the quarantine makes of the closure. */
    method ShowClosed(from: Label, closure: Closure) returns (flow: Flow)
      requires Base() && !raised && InStep(from) && QuarantineLabelFor(closure).Some? && !from.CanceledLabel?
      modifies this`approvalSignal, this`ran, this`newComments, this`script, this`raised, this`labels, this`edits,
               this`currentLabel, this`markerPosted
      ensures raised <==> flow == Stop(Raised)
      ensures flow in {Go, Stop(Raised), Stop(Suspended)}
      ensures Base() && T() == old(T()) && Quiet(old(G()), G())
      ensures tidy ==> AllOrderly(edits)
      ensures flow.Go? && tidy ==>
        StateLabels(labels) == {if canQuarantine then QuarantineLabelFor(closure).value else CanceledLabel}
      ensures flow == Stop(Suspended) ==> script == []
      ensures flow.Go? && canQuarantine ==> markerPosted
    {
      hide Base, T, G, StateLabels, AllOrderly, Shows, Quarantined;
      flow := MoveLabel(from, {from, CancelMark}, CanceledLabel);
      if flow.Stop? {
        return;
      }
      flow := Quarantine(closure);
    }

    /** The run ends canceled or rejected. */
    method Close(from: Label, status: Status, reason: string) returns (flow: Flow)
      requires Base() && !raised && InStep(from) && !from.CanceledLabel? && (status.Canceled? || status.Rejected?)
      requires T().merges == 0
      requires G().canceling <==> status.Canceled? && G().lastDesign != Some(Reject)
      requires if status.Canceled? then CanceledBy(G().last, reason) else RejectedBy(G().last, reason)
      modifies this`approvalSignal, this`ran, this`newComments, this`script, this`raised, this`labels, this`edits,
               this`currentLabel, this`markerPosted
      ensures raised <==> flow == Stop(Raised)
      ensures flow.Stop? && Stopped(flow)
      ensures Undrained(old(G()), G())
      ensures flow.ending in {Finished(status, reason), Raised, Suspended}
    {
      hide Base, Stopped, Left, TallyOf, GatesOf, AllOrderly, StateLabels, CanceledBy, RejectedBy;
      flow := ShowClosed(from, if status.Canceled? then CanceledRun else OtherwiseClosed("rejected"));
      if flow.Stop? {
        StopsEarly(flow);
        return;
      }
      Finishes(status, reason);
      flow := Stop(Finished(status, reason));
    }

    lemma Known()
      requires Base()
      ensures G().slot == approvalSignal && G().talk.queue == newComments
    {}

    /** What is left of the script is told by how much is left. */
    lemma WhatIsLeft()
      requires Base()
      ensures |script| <= |all| && script == all[|all| - |script|..]
    {}

    lemma Further(ahead: seq<Await>, k: nat)
      requires Base() && |ahead| <= |all| && ahead == all[|all| - |ahead|..] && k + |script| == |ahead|
      ensures script == ahead[k..]
    {
      WhatIsLeft();
    }

    lemma NoCancelLatched()
      requires Base()
      ensures peaceful ==> !CancelRequested()
    {}

    /** The look at the slot that `_cancel_if_requested` starts with. */
    method CheckCancel() returns (cancel: bool)
      requires Base() && NoteAllowed(G(), Checked)
      modifies this`approvalSignal, this`ran
      ensures Base() && T() == old(T()) && approvalSignal == old(approvalSignal) && cancel == CancelRequested()
      ensures G() == old(G()).(building := false, canceling := cancel,
                               last := if cancel then Some(AtCheck(approvalSignal.value)) else old(G()).last)
      ensures !cancel ==> Quiet(old(G()), G())
    {
      hide TallyOf, GatesOf, GateSafe, Dedup, Sound, Passed, Blocked, Bounded, GatesAfter, TallyAfter;
      CheckedGates(G());
      Mark(Checked);
      cancel := CancelRequested();
    }

    /** `_cancel_if_requested` once it found a cancel. */
    method CancelRun(current: Label) returns (flow: Flow)
      requires Base() && !raised && InStep(current) && !current.CanceledLabel? && T().merges == 0
      requires approvalSignal.Some? && G().canceling && G().lastDesign != Some(Reject)
      requires CancelRequested() && G().last == Some(AtCheck(approvalSignal.value))
      modifies this`approvalSignal, this`ran, this`newComments, this`script, this`raised, this`labels, this`edits,
               this`currentLabel, this`markerPosted
      ensures raised <==> flow == Stop(Raised)
      ensures flow.Stop? && Stopped(flow) && Undrained(old(G()), G())
      ensures flow.ending in {Finished(Status.Canceled, CancelReason(old(approvalSignal).value)), Raised, Suspended}
    {
      hide Base, T, TallyOf, GatesOf, Left, Shows, Stopped;
      flow := Close(current, Status.Canceled, CancelReason(approvalSignal.value));
    }

    /** Takes the queued comments into the state. */
    method Absorb()
      requires Latched() && NoteAllowed(G(), Drained)
      modifies this`newComments, this`issueComments, this`ran
      ensures Latched() && newComments == [] && old(issueComments) <= issueComments
      ensures T() == old(T()) && G() == GatesAfter(old(G()), Noted(Drained))
    {
      hide TallyOf, GatesOf, GateSafe, Dedup, GatesAfter, TallyAfter;
      DrainedGates(G());
      AbsorbOne(hydrated, G().talk.taken, newComments);
      Record(Noted(Drained));
      var taken := newComments;
      newComments := [];
      issueComments := MergeIssueComments(Some(issueComments), Some(taken));
    }

    /** Absorbing comments touches nothing else. */
    method TakeIn()
      requires Early()
      modifies this`newComments, this`issueComments, this`ran
      ensures Early() && newComments == [] && T() == old(T()) && Listened(old(G()), G())
      ensures G().talk.taken == old(G()).talk.taken + old(newComments)
      ensures Counts(G().talk) == if old(G().talk.asked && newComments != []) then Answered(old(G()).talk) else Counts(old(G()).talk)
    {
      hide Sound, Bounded, Passed, Blocked, TallyOf, GatesOf, GateSafe, Dedup, HumanComments, GatesAfter;
      DrainedGates(G());
      Absorb();
    }

    // ---------- Triage ----------

    /** Triage has not accepted the issue and no cancel was found. */
    ghost predicate Early()
      reads `approvalSignal, `newComments, `issueComments, `hydrated, `ran, `state, `script, `raised
    {
      Base() && T().merges == 0 && T().hydrated && !G().talk.accepted && !G().canceling && G().lastDesign.None?
    }

    /** Triage is about to take its next turn, after `n` turns and as many answered rounds. */
    ghost predicate TurnDue(n: nat)
      reads `ran
    {
      T().triages == n && Counts(G().talk) == (n, false, n)
    }

    /** The triage activity, on an empty queue. */
    method AskTriage() returns (flow: Flow)
      requires Early() && !raised && T().triages <= MAX_CLARIFICATION_ROUNDS && newComments == [] && !CancelRequested()
      requires G().talk.unready == G().talk.rounds
      modifies this`approvalSignal, this`ran, this`newComments, this`script, this`raised
      ensures flow == EndOf(old(script)) && script == Rest(old(script)) && (raised <==> flow == Stop(Raised))
      ensures peaceful && old(script) != [] ==> flow.Go?
      ensures approvalSignal == Heard(old(script), old(approvalSignal))
      ensures newComments == old(newComments) + Told(old(script))
      ensures Early() && Listened(old(G()), G()) && Counts(G().talk) == Counts(old(G()).talk)
      ensures G().talk.taken == old(G()).talk.taken
      ensures T() == old(T()).(triages := T().triages) && T().triages <= old(T()).triages + 1
      ensures flow.Go? ==> G().talk.judged && T().triages == old(T()).triages + 1
    {
      hide Base, TallyOf, TallyAfter, GatesOf, ActAfter, Heard, Told;
      Known();
      flow := Step(Triage);
      if flow != Stop(Suspended) {
        TriageSteps(old(T()), old(G()), flow.Go?, G());
      }
    }

    /** What the turn found is noted; an issue that is ready is accepted. */
    ghost method Find(ready: bool)
      requires Early() && G().talk.judged && G().talk.unready == G().talk.rounds
      modifies this`ran
      ensures Base() && T() == old(T()) && Listened(old(G()), G())
      ensures G().talk.taken == old(G()).talk.taken && G().talk.queue == old(G()).talk.queue
      ensures G().talk.accepted == ready
      ensures Counts(G().talk) == (old(G()).talk.unready + (if ready then 0 else 1), old(G()).talk.asked, old(G()).talk.rounds)
    {
      hide TallyOf, GatesOf, GateSafe, Dedup, Sound, Bounded, Blocked, Passed, Consumed, Calm, GatesAfter,
           TallyAfter;
      TriagedGates(G(), ready);
      Record(Noted(Triaged(ready)));
    }

    /** One triage turn's judgement; an issue that is ready is accepted. */
    method TriageStage() returns (flow: Flow, ready: bool)
      requires Early() && !raised && T().triages <= MAX_CLARIFICATION_ROUNDS && newComments == [] && !CancelRequested()
      requires G().talk.unready == G().talk.rounds
      modifies this`approvalSignal, this`ran, this`newComments, this`script, this`raised
      ensures flow == EndOf(old(script)) && script == Rest(old(script)) && (raised <==> flow == Stop(Raised))
      ensures peaceful && old(script) != [] ==> flow.Go?
      ensures approvalSignal == Heard(old(script), old(approvalSignal))
      ensures newComments == old(newComments) + Told(old(script))
      ensures Base() && Listened(old(G()), G()) && G().talk.taken == old(G()).talk.taken
      ensures T() == old(T()).(triages := T().triages) && T().triages <= old(T()).triages + 1
      ensures InStep(currentLabel) ==> Stopped(flow)
      ensures ready == (old(script) != [] && old(script)[0].ready)
      ensures flow.Go? ==> (G().talk.accepted <==> ready) && T().triages == old(T()).triages + 1
      ensures flow.Go? && !ready ==> Early()
      ensures flow.Go? && !ready ==>
        Counts(G().talk) == (old(G()).talk.unready + 1, old(G()).talk.asked, old(G()).talk.rounds)
    {
      hide Base, Stopped, Left, T, GatesOf, Told, Heard;
      ready := script != [] && script[0].ready;
      flow := AskTriage();
      if flow.Go? {
        Find(ready);
      }
      if InStep(currentLabel) {
        StopsEarly(flow);
      }
    }

    /** The run waits outside any activity, and something arrives. */
    method Listen() returns (flow: Flow)
      requires Base() && !raised && NoteAllowed(G(), Waited)
      modifies this`approvalSignal, this`ran, this`newComments, this`script, this`raised
      ensures flow == EndOf(old(script)) && script == Rest(old(script)) && (raised <==> flow == Stop(Raised))
      ensures peaceful && old(script) != [] ==> flow.Go?
      ensures approvalSignal == Heard(old(script), old(approvalSignal))
      ensures newComments == old(newComments) + Told(old(script))
      ensures Base() && T() == old(T()) && Quiet(old(G()), G())
      ensures InStep(currentLabel) ==> Stopped(flow)
    {
      hide Stopped, Left, TallyOf, GatesOf, GateSafe, Dedup, HumanComments, EvidenceNamed, Blocked, Passed, SignalAfter,
           WithinBudget, Total, RepliesNamed, ToldIn;
      flow := Stop(Suspended);
      if script != [] {
        flow := Wait();
      }
      if InStep(currentLabel) {
        StopsEarly(flow);
      }
    }

    /** Waits for comments or a cancel. */
    method AwaitComments() returns (flow: Flow)
      requires Base() && !raised && G().talk.asked && !G().canceling
      modifies this`approvalSignal, this`ran, this`newComments, this`script, this`raised
      ensures raised <==> flow == Stop(Raised)
      ensures flow in {Go, Stop(Raised), Stop(Suspended)}
      ensures Base() && T() == old(T()) && Quiet(old(G()), G()) && |script| <= |old(script)|
      ensures flow.Go? ==> newComments != [] || CancelRequested()
      ensures flow == Stop(Suspended) ==> script == []
      ensures InStep(currentLabel) ==> Stopped(flow)
      ensures peaceful && SaidBy(old(script)) <= |old(script)| ==>
        flow.Go? && |script| >= |old(script)| - SaidBy(old(script))
    {
      hide Base, Left, T, Stopped, Shows, Heard, ToldIn, GatesOf, Quiet, Listened, Undrained;
      Unmoved(G());
      while newComments == [] && !CancelRequested()
        invariant !raised && Base() && T() == old(T()) && Quiet(old(G()), G()) && |script| <= |old(script)|
        invariant peaceful && SaidBy(old(script)) <= |old(script)| ==>
          if newComments == [] then |old(script)| - SaidBy(old(script)) == |script| - SaidBy(script)
          else |script| >= |old(script)| - SaidBy(old(script))
        decreases |script|
      {
        Known();
        ghost var gates := G();
        QuietMeans(old(G()), gates);
        flow := Listen();
        QuietThen(old(G()), gates, G());
        if flow.Stop? {
          return;
        }
      }
      flow := Go;
      if InStep(currentLabel) {
        StaysIn(flow);
      }
    }

    /** A question is open. */
    method NoteAsked()
      requires Early() && !G().talk.asked && G().talk.unready == G().talk.rounds + 1
      modifies this`approvalSignal, this`ran
      ensures Early() && T() == old(T()) && approvalSignal == old(approvalSignal)
      ensures Quiet(old(G()).(talk := old(G()).talk.(asked := true)), G()) && G().talk.asked
    {
      hide TallyOf, GatesOf, GateSafe, Dedup, Sound, Bounded, Blocked, Passed, GatesAfter, TallyAfter;
      AskedGates(G());
      Mark(Asked);
    }

    /** Says that questions are coming, and posts them. */
    method PostQuestions() returns (flow: Flow)
      requires Early() && !raised && InStep(currentLabel)
      modifies this`approvalSignal, this`ran, this`newComments, this`script, this`raised
      ensures raised <==> flow == Stop(Raised)
      ensures Stopped(flow) && flow in {Go, Stop(Raised), Stop(Suspended)}
      ensures Base() && T() == old(T()) && Quiet(old(G()), G())
      ensures flow.Go? ==> Early() && script == Rest(Rest(old(script))) && |script| < |old(script)|
      ensures peaceful && |old(script)| >= 2 ==> flow.Go?
    {
      hide Base, Left, Shows, T, GatesOf, Stopped, Heard, Told, Quiet, Listened;
      flow := Phase();
      ghost var gates := G();
      QuietMeans(old(G()), gates);
      if flow.Stop? {
        return;
      }
      flow := Phase();
      QuietThen(old(G()), gates, G());
      QuietMeans(old(G()), G());
    }

    /** Posts the questions and shows that the issue waits for its author. */
    method AskAuthor() returns (flow: Flow)
      requires Early() && !raised && InStep(Triaging) && !G().talk.asked && G().talk.unready == G().talk.rounds + 1
      modifies this`approvalSignal, this`ran, this`newComments, this`script, this`raised, this`labels, this`edits,
               this`currentLabel
      ensures raised <==> flow == Stop(Raised)
      ensures Stopped(flow) && flow in {Go, Stop(Raised), Stop(Suspended)}
      ensures flow.Go? ==> Early() && T() == old(T()) && Quiet(old(G()).(talk := old(G()).talk.(asked := true)), G())
      ensures flow.Go? ==> InStep(NeedsClarification) && |script| < |old(script)| && G().talk.asked
      ensures flow.Go? ==> script == Rest(Rest(Rest(old(script))))
      ensures peaceful && |old(script)| >= 3 ==> flow.Go?
    {
      hide Base, Left, Shows, T, GatesOf, Stopped, Heard, Told, Quiet, Listened;
      flow := PostQuestions();
      if flow.Stop? {
        return;
      }
      ghost var posted := G();
      QuietMeans(old(G()), posted);
      NoteAsked();
      ghost var gates := G();
      AskedThen(old(G()), posted, gates);
      AskedMeans(old(G()), gates);
      flow := MoveLabel(Triaging, {Triaging}, NeedsClarification);
      QuietMeans(gates, G());
      StillAsked(old(G()), gates, G());
    }

    /** The label and the report that say triage goes on. */
    method BackToTriage() returns (flow: Flow)
      requires Early() && !raised && InStep(NeedsClarification)
      modifies this`approvalSignal, this`ran, this`newComments, this`script, this`raised, this`labels, this`edits,
               this`currentLabel
      ensures raised <==> flow == Stop(Raised)
      ensures Stopped(flow) && flow in {Go, Stop(Raised), Stop(Suspended)}
      ensures flow.Go? ==> Early() && InStep(Triaging) && T() == old(T()) && Listened(old(G()), G())
      ensures flow.Go? ==> G().talk.taken == old(G()).talk.taken && Counts(G().talk) == Counts(old(G()).talk)
      ensures |script| <= |old(script)|
      ensures peaceful && |old(script)| >= 2 ==> flow.Go? && |script| == |old(script)| - 2
    {
      hide Base, Left, Shows, T, GatesOf, Stopped, Heard, Told, Quiet, Listened;
      flow := MoveLabel(NeedsClarification, {NeedsClarification}, Triaging);
      ghost var gates := G();
      QuietMeans(old(G()), gates);
      if flow.Stop? {
        return;
      }
      flow := Phase();
      QuietMeans(gates, G());
      ListenedThen(old(G()), gates, G());
    }

    /** A latched cancel ends the run; otherwise what was said is taken in and triage goes on. */
    method Resume() returns (flow: Flow)
      requires Early() && !raised && InStep(NeedsClarification) && (newComments != [] || CancelRequested())
      requires G().talk.asked
      modifies this`approvalSignal, this`ran, this`newComments, this`script, this`raised, this`labels, this`edits,
               this`currentLabel,
               this`issueComments, this`markerPosted
      ensures raised <==> flow == Stop(Raised)
      ensures Stopped(flow)
      ensures flow.Go? ==> Early() && InStep(Triaging) && T() == old(T()) && Listened(old(G()), G())
      ensures flow.Go? ==> |script| <= |old(script)| && |G().talk.taken| > |old(G()).talk.taken|
      ensures flow.Go? ==> Counts(G().talk) == Answered(old(G()).talk)
      ensures peaceful && |old(script)| >= 2 ==> flow.Go? && |script| == |old(script)| - 2
      ensures flow.Stop? && flow.ending.Finished? ==> flow.ending.status.Canceled?
    {
      hide Base, Left, Shows, T, GatesOf, Stopped, Heard, Told, Quiet, Listened;
      NoCancelLatched();
      var cancel := CheckCancel();
      if cancel {
        flow := CancelRun(NeedsClarification);
        return;
      }
      ghost var checked := G();
      QuietMeans(old(G()), checked);
      TakeIn();
      ghost var taken := G();
      ListenedThen(old(G()), checked, taken);
      flow := BackToTriage();
      if flow.Go? {
        ListenedThen(old(G()), taken, G());
      }
    }

    /** One clarification round: it ends only when the author said something new, or the run. */
    method Clarify() returns (flow: Flow)
      requires Early() && !raised && InStep(Triaging) && !G().talk.asked && G().talk.unready == G().talk.rounds + 1
      modifies this`approvalSignal, this`ran, this`newComments, this`script, this`raised, this`labels, this`edits,
               this`currentLabel,
               this`issueComments, this`markerPosted
      ensures raised <==> flow == Stop(Raised)
      ensures Stopped(flow)
      ensures flow.Go? ==> Early() && InStep(Triaging) && T() == old(T()) && Listened(old(G()), G())
      ensures flow.Go? ==> |script| < |old(script)| && |G().talk.taken| > |old(G()).talk.taken|
      ensures flow.Go? ==> Counts(G().talk) == Answered(old(G()).talk)
      ensures peaceful && |old(script)| >= 3 && SaidBy(old(script)[3..]) + 5 <= |old(script)| ==>
        flow.Go? && |script| >= |old(script)| - 5 - SaidBy(old(script)[3..])
      ensures flow.Stop? && flow.ending.Finished? ==> flow.ending.status.Canceled?
    {
      hide Base, Left, Shows, T, GatesOf, Stopped, Told, ToldIn, Quiet, Steady, Listened;
      flow := AskAuthor();
      if flow.Stop? {
        return;
      }
      ghost var asked := G();
      AskedMeans(old(G()), asked);
      flow := AwaitComments();
      QuietMeans(asked, G());
      ListenedThen(old(G()), asked, G());
      if flow.Stop? {
        return;
      }
      asked := G();
      flow := Resume();
      if flow.Go? {
        ListenedThen(old(G()), asked, G());
      }
    }

    /** Adds a final label beside the one shown. */
    method AddLabel(from: Label, to: Label) returns (flow: Flow)
      requires Base() && !raised && InStep(from) && IsState(to)
      requires (from, to) in {(Triaging, NeedsHumanLabel), (InProgress, Done)}
      modifies this`approvalSignal, this`ran, this`newComments, this`script, this`raised, this`labels, this`edits
      ensures flow == EndOf(old(script)) && script == Rest(old(script)) && (raised <==> flow == Stop(Raised))
      ensures peaceful && old(script) != [] ==> flow.Go?
      ensures approvalSignal == Heard(old(script), old(approvalSignal))
      ensures newComments == old(newComments) + Told(old(script))
      ensures Base() && T() == old(T()) && Quiet(old(G()), G())
      ensures tidy ==> AllOrderly(edits)
      ensures flow.Go? && tidy ==> StateLabels(labels) == {from, to}
      ensures Stopped(flow)
    {
      hide Base, Stopped, Left, TallyOf, GatesOf, Heard, Told, Orderly, Quiet;
      var took;
      flow, took := EditAwait();
      if took {
        labels := labels + {to};
        edits := edits + [labels];
      }
      if tidy && took {
        AddShows(old(Board(labels, edits)), from, to);
      }
      StopsEarly(flow);
    }

    /** Takes the old label off once the final one is on. */
    method FinishLabel(from: Label, to: Label) returns (flow: Flow)
      requires Base() && IsState(to) && from != to && (tidy ==> StateLabels(labels) == {from, to} && AllOrderly(edits))
      requires !raised
      modifies this`approvalSignal, this`ran, this`newComments, this`script, this`raised, this`labels, this`edits,
               this`currentLabel
      ensures flow == EndOf(old(script)) && script == Rest(old(script)) && (raised <==> flow == Stop(Raised))
      ensures peaceful && old(script) != [] ==> flow.Go?
      ensures approvalSignal == Heard(old(script), old(approvalSignal))
      ensures newComments == old(newComments) + Told(old(script))
      ensures Base() && T() == old(T()) && Quiet(old(G()), G())
      ensures flow.Go? ==> InStep(to)
      ensures tidy ==> AllOrderly(edits)
      ensures Stopped(flow)
    {
      hide Base, Stopped, Left, TallyOf, GatesOf, Heard, Told, Orderly, Quiet;
      ghost var edited;
      flow, edited := SwapLabel({from}, to);
      if tidy && edited {
        FinishShows(old(labels), from, to);
        OrderlyOne(old(edits), labels);
      }
      StopsEarly(flow);
    }

    /** The final label goes on in one activity and the old one comes off in the next. */
    method Replace(from: Label, to: Label) returns (flow: Flow)
      requires Base() && !raised && InStep(from) && IsState(to)
      requires (from, to) in {(Triaging, NeedsHumanLabel), (InProgress, Done)}
      modifies this`approvalSignal, this`ran, this`newComments, this`script, this`raised, this`labels, this`edits,
               this`currentLabel, this`markerPosted
      ensures raised <==> flow == Stop(Raised)
      ensures flow in {Go, Stop(Raised), Stop(Suspended)}
      ensures Base() && T() == old(T()) && Quiet(old(G()), G())
      ensures flow.Go? ==> InStep(to)
      ensures peaceful && |old(script)| >= 2 ==> flow.Go? && |script| == |old(script)| - 2
      ensures tidy ==> AllOrderly(edits)
      ensures if flow == Stop(Suspended) then script == [] else |script| < |old(script)|
    {
      hide Base, Stopped, Left, TallyOf, GatesOf, Heard, Told, StateLabels, AllOrderly, Quiet;
      flow := AddLabel(from, to);
      if flow.Stop? {
        return;
      }
      ghost var gates := G();
      flow := FinishLabel(from, to);
      QuietThen(old(G()), gates, G());
    }

    /** Too many rounds: a human is asked, the needs-human label goes on before the old one goes off. */
    method Abandon() returns (flow: Flow)
      requires Early() && !raised && InStep(Triaging)
      requires T().triages == 1 + MAX_CLARIFICATION_ROUNDS
      requires Counts(G().talk) == (1 + MAX_CLARIFICATION_ROUNDS, false, MAX_CLARIFICATION_ROUNDS)
      modifies this`approvalSignal, this`ran, this`newComments, this`script, this`raised, this`labels, this`edits,
               this`currentLabel, this`markerPosted
      ensures raised <==> flow == Stop(Raised)
      ensures flow.Stop? && Stopped(flow)
      ensures flow.ending in {Finished(Abandoned, "max_clarification_rounds"), Raised, Suspended}
    {
      hide Base, Stopped, Left, TallyOf, GatesOf, Heard, Told, StateLabels;
      flow := Phase();
      if flow.Stop? {
        return;
      }
      flow := Replace(Triaging, NeedsHumanLabel);
      if flow.Stop? {
        StopsEarly(flow);
        return;
      }
      Finishes(Abandoned, "max_clarification_rounds");
      flow := Stop(Finished(Abandoned, "max_clarification_rounds"));
    }

    /** One turn of triage: absorb what was said, judge, and ask or go on. */
    method TriageTurn(round: nat) returns (flow: Flow, done: bool)
      requires Early() && !raised && InStep(Triaging)
      requires TurnDue(round) && round <= MAX_CLARIFICATION_ROUNDS && !CancelRequested()
      modifies this`approvalSignal, this`ran, this`newComments, this`script, this`raised, this`labels, this`edits,
               this`currentLabel,
               this`issueComments, this`markerPosted
      ensures raised <==> flow == Stop(Raised)
      ensures Stopped(flow) && (flow.Stop? ==> done)
      ensures flow.Go? ==> Base() && InStep(Triaging) && Listened(old(G()), G()) && (G().talk.accepted <==> done)
      ensures flow.Go? ==> T() == old(T()).(triages := T().triages) && T().triages <= round + 1
      ensures flow.Go? ==> |script| < |old(script)|
      ensures !done ==>
        round < MAX_CLARIFICATION_ROUNDS && |G().talk.taken| > |old(G()).talk.taken| && TurnDue(round + 1)
      ensures flow.Stop? && flow.ending.Finished? ==>
        if flow.ending.status.Abandoned? then round == MAX_CLARIFICATION_ROUNDS else flow.ending.status.Canceled?
      ensures peaceful && |old(script)| >= 2 && old(script)[0].ready ==>
        flow.Go? && done && |script| == |old(script)| - 2
      ensures (peaceful && |old(script)| >= 4 && !old(script)[0].ready && round < MAX_CLARIFICATION_ROUNDS
               && SaidBy(old(script)[4..]) + 6 <= |old(script)|) ==>
        flow.Go? && !done && |script| >= |old(script)| - 6 - SaidBy(old(script)[4..])
    {
      hide Base, Left, Shows, T, GatesOf, Stopped, Heard, Told;
      done := true;
      if newComments != [] {
        TakeIn();
      }
      var ready;
      flow, ready := TriageStage();
      if flow.Stop? {
        return;
      }
      if ready {
        flow := Phase();
      } else if round >= MAX_CLARIFICATION_ROUNDS {
        flow := Abandon();
      } else {
        flow := Clarify();
        done := flow.Stop?;
      }
    }

    /** A latched cancel ends the run before the next turn of triage. */
    method CancelOrTurn(round: nat) returns (flow: Flow, done: bool)
      requires Early() && !raised && InStep(Triaging) && TurnDue(round) && round <= MAX_CLARIFICATION_ROUNDS
      modifies this`approvalSignal, this`ran, this`newComments, this`script, this`raised, this`labels, this`edits,
               this`currentLabel,
               this`issueComments, this`markerPosted
      ensures raised <==> flow == Stop(Raised)
      ensures Stopped(flow) && (flow.Stop? ==> done)
      ensures flow.Go? ==> Base() && InStep(Triaging) && Listened(old(G()), G()) && (G().talk.accepted <==> done)
      ensures flow.Go? && !done ==> Early() && TurnDue(round + 1) && round < MAX_CLARIFICATION_ROUNDS
      ensures flow.Go? ==> T() == old(T()).(triages := T().triages) && |script| < |old(script)|
      ensures flow.Stop? && flow.ending.Finished? ==> flow.ending.status.Abandoned? || flow.ending.status.Canceled?
      ensures peaceful && |old(script)| >= 2 && old(script)[0].ready ==>
        flow.Go? && done && |script| == |old(script)| - 2
    {
      hide Base, Left, Shows, Stopped, T, GatesOf, Told, Quiet, Listened;
      done := true;
      NoCancelLatched();
      var cancel := CheckCancel();
      if cancel {
        flow := CancelRun(Triaging);
        return;
      }
      ghost var gates := G();
      QuietMeans(old(G()), gates);
      flow, done := TriageTurn(round);
      if flow.Go? {
        IntakeMeans(gates, G());
        ListenedThen(old(G()), gates, G());
      }
    }

    /** `_run_triage`: at most four triage turns and three clarification rounds. */
    method RunTriage() returns (flow: Flow)
      requires Early() && !raised && InStep(Triaging) && TurnDue(0)
      modifies this`approvalSignal, this`ran, this`newComments, this`script, this`raised, this`labels, this`edits,
               this`currentLabel,
               this`issueComments, this`markerPosted
      ensures raised <==> flow == Stop(Raised)
      ensures Stopped(flow)
      ensures flow.Go? ==> Base() && InStep(Triaging) && T() == old(T()).(triages := T().triages)
      ensures flow.Go? ==> Listened(old(G()), G()) && G().talk.accepted
      ensures flow.Stop? && flow.ending.Finished? ==> flow.ending.status.Abandoned? || flow.ending.status.Canceled?
      ensures peaceful && |old(script)| >= 2 && old(script)[0].ready ==> flow.Go? && |script| == |old(script)| - 2
    {
      hide Base, Left, Shows, Stopped, T, GatesOf, Early, TurnDue, InStep, Listened;
      var round := 0;
      Unmoved(G());
      QuietMeans(G(), G());
      while true
        invariant !raised && TurnDue(round) && round <= MAX_CLARIFICATION_ROUNDS
        invariant peaceful && |old(script)| >= 2 && old(script)[0].ready ==> script == old(script)
        invariant Early() && InStep(Triaging) && T() == old(T()).(triages := T().triages) && Listened(old(G()), G())
        decreases |script|
      {
        ghost var gates := G();
        var done;
        flow, done := CancelOrTurn(round);
        if flow.Go? {
          ListenedThen(old(G()), gates, G());
        }
        if done {
          return;
        }
        round := round + 1;
      }
    }

    // ---------- Planning and the design gate ----------

    /** No spec approved, nothing built, the revision counts revises, no cancel found. */
    ghost predicate Unbuilt()
      reads `approvalSignal, `newComments, `issueComments, `hydrated, `ran, `state, `script, `latestSpecRev, `raised
    {
      && Base() && T().merges == 0 && latestSpecRev == 1 + G().revises
      && !G().designPassed && !G().mergePassed && G().approved.None? && G().fixes == 0 && G().actions == 0 && T().verifies == 0
      && !G().canceling && !G().built
    }

    /** Triage is over and the design gate is still ahead. */
    ghost predicate Planning()
      reads `approvalSignal, `newComments, `issueComments, `hydrated, `ran, `state, `script, `latestSpecRev, `raised
    {
      Unbuilt() && G().talk.accepted && T().hydrated
    }

    /** The label planning runs under: a fix or rebuild signal at the gate left the gate's label on. */
    ghost function PlanningLabel(): Label
      reads `ran
    {
      if StrayLast(G()) then AwaitingApproval else Designing
    }

    /** The spec in the state is the one the last discovery left. */
    predicate PlanInState()
      reads `plans, `state
    {
      state.spec == plans.spec
    }

    /** The discovery activity, on a state without the previous plan. */
    method Explore() returns (flow: Flow)
      requires Planning() && !raised && !G().hasPlan && T().discoveries < PLANNING_MAX_ATTEMPTS * (1 + G().replans)
      modifies this`approvalSignal, this`ran, this`newComments, this`script, this`raised
      ensures flow == EndOf(old(script)) && script == Rest(old(script)) && (raised <==> flow == Stop(Raised))
      ensures peaceful && old(script) != [] ==> flow.Go?
      ensures approvalSignal == Heard(old(script), old(approvalSignal))
      ensures newComments == old(newComments) + Told(old(script))
      ensures Planning() && Quiet(old(G()), G()) && T() == old(T()).(discoveries := T().discoveries)
      ensures T().discoveries <= old(T()).discoveries + 1
      ensures InStep(currentLabel) ==> Stopped(flow)
    {
      hide Base, Stopped, Left, TallyOf, GatesOf, Heard, Told;
      flow := Step(Discovery);
      if InStep(currentLabel) {
        StopsEarly(flow);
      }
    }

    /** The previous plan is dropped. */
    method DropPlan()
      requires Planning()
      modifies this`state
      ensures Planning() && state == WithPlan(old(state), BLANK)
      ensures named && script != [] ==> EvidenceNamed(WithPlan(state, script[0].plans), names)
    {
      hide TallyOf, GatesOf, Latched, Blocked, Passed, Total, WithinBudget, EvidenceNamed, RepliesNamed;
      PlansNamed();
      PlansKeep(state, BLANK);
      state := WithPlan(state, BLANK);
    }

    /** A plan and the critic's verdict on it are taken. */
    method TakePlan(reply: Plans) returns (approved: bool)
      requires Planning() && !G().hasPlan && (named ==> EvidenceNamed(WithPlan(state, reply), names))
      modifies this`approvalSignal, this`ran, this`state, this`plans
      ensures Planning() && T() == old(T()) && approvalSignal == old(approvalSignal)
      ensures Drafted(old(G()), G()) && G().hasPlan == approved
      ensures G().refused == old(G()).refused + if approved then 0 else 1
      ensures approved <==> reply.decision != Some(Some(false))
      ensures plans == reply && state == WithPlan(old(state), reply)
    {
      hide TallyOf, GatesOf, GateSafe, Dedup, Total, Consumed, Calm, Passed, Blocked, WithinBudget,
           EvidenceNamed, ScriptNamed, GatesAfter, TallyAfter;
      approved := PlanningApproved(reply.decision);
      RefusedIff(reply.decision);
      PlansKeep(state, reply);
      PlannedGates(G(), approved);
      Mark(Note.Planned(approved));
      plans := reply;
      state := WithPlan(state, reply);
    }

    /** One planning attempt; only an explicit no refuses the plan. */
    method Discover() returns (flow: Flow, approved: bool)
      requires Planning() && !raised && !G().hasPlan && T().discoveries < PLANNING_MAX_ATTEMPTS * (1 + G().replans)
      modifies this`approvalSignal, this`ran, this`newComments, this`script, this`raised, this`state, this`plans
      ensures flow == EndOf(old(script)) && script == Rest(old(script)) && (raised <==> flow == Stop(Raised))
      ensures peaceful && old(script) != [] ==> flow.Go?
      ensures approvalSignal == Heard(old(script), old(approvalSignal))
      ensures Planning() && Drafted(old(G()), G()) && T().discoveries <= old(T()).discoveries + 1
      ensures G().hasPlan == approved && (approved ==> flow.Go?)
      ensures G().refused == old(G()).refused + if flow.Go? && !approved then 1 else 0
      ensures flow.Go? ==> PlanInState() && plans == old(script)[0].plans && state == WithPlan(old(state), plans)
      ensures flow.Go? ==> (approved <==> plans.decision != Some(Some(false)))
      ensures InStep(currentLabel) ==> Stopped(flow)
    {
      hide Base, Stopped, Left, TallyOf, GatesOf, EvidenceNamed, Heard, Told;
      approved := false;
      var reply := if script == [] then BLANK else script[0].plans;
      DropPlan();
      flow := Explore();
      if flow.Go? {
        approved := TakePlan(reply);
        if InStep(currentLabel) {
          Unstopped(flow);
        }
      }
    }

    lemma PlansNamed()
      requires Bounded()
      ensures named ==> EvidenceNamed(WithPlan(state, BLANK), names)
      ensures named && script != [] ==> EvidenceNamed(WithPlan(state, script[0].plans), names)
    {
      hide Named, TestersNamed, ReconNamed, CoverageNamed;
    }

    /** One turn of the planning loop: a report and an attempt. */
    method PlanTurn() returns (flow: Flow, approved: bool)
      requires Planning() && !raised && !G().hasPlan && T().discoveries < PLANNING_MAX_ATTEMPTS * (1 + G().replans)
      modifies this`approvalSignal, this`ran, this`newComments, this`script, this`raised, this`state, this`plans
      ensures raised <==> flow == Stop(Raised)
      ensures flow in {Go, Stop(Raised), Stop(Suspended)}
      ensures Planning() && Drafted(old(G()), G()) && T().discoveries <= old(T()).discoveries + 1
      ensures G().hasPlan == approved && (approved ==> flow.Go?)
      ensures G().refused == old(G()).refused + if flow.Go? && !approved then 1 else 0
      ensures flow.Go? <==> EndOf(old(script)).Go? && EndOf(Rest(old(script))).Go?
      ensures flow.Go? ==> script == Rest(Rest(old(script))) && PlanInState()
      ensures flow.Go? ==> approvalSignal == Heard(Rest(old(script)), Heard(old(script), old(approvalSignal)))
      ensures flow.Go? ==> plans == Rest(old(script))[0].plans && state == WithPlan(old(state), plans)
      ensures flow.Go? ==> (approved <==> plans.decision != Some(Some(false)))
      ensures InStep(currentLabel) ==> Stopped(flow)
      ensures |script| <= |old(script)|
      ensures peaceful && |old(script)| >= 2 ==> flow.Go?
    {
      hide Base, Stopped, InStep, TallyOf, GatesOf, Heard, WithPlan;
      approved := false;
      flow := Phase();
      if flow.Stop? {
        return;
      }
      flow, approved := Discover();
    }

    /** `_run_planning_loop`: at most five attempts, and none after a plan that the critic lets through; the
        revision is unchanged by them. */
    method PlanningLoop() returns (flow: Flow, approved: bool)
      requires Planning() && !raised && T().discoveries <= PLANNING_MAX_ATTEMPTS * G().replans
      requires !G().hasPlan && G().refused == 0
      modifies this`approvalSignal, this`ran, this`newComments, this`script, this`raised, this`state, this`plans
      ensures raised <==> flow == Stop(Raised)
      ensures flow in {Go, Stop(Raised), Stop(Suspended)}
      ensures Planning() && Drafted(old(G()), G()) && |script| <= |old(script)|
      ensures T().discoveries <= PLANNING_MAX_ATTEMPTS * (1 + G().replans)
      ensures G().hasPlan == approved && (approved ==> flow.Go?)
      ensures flow.Go? && approved ==> PlanInState() && plans.decision != Some(Some(false))
      ensures flow.Go? && !approved <==> G().refused == PLANNING_MAX_ATTEMPTS
      ensures Rejects(old(script), PLANNING_MAX_ATTEMPTS) ==>
        flow.Go? && !approved && script == AfterTurns(old(script), PLANNING_MAX_ATTEMPTS)
      ensures InStep(currentLabel) ==> Stopped(flow)
      ensures peaceful && |old(script)| >= 2 && PlanningApproved(old(script)[1].plans.decision) ==>
        flow.Go? && approved && script == Rest(Rest(old(script))) && state == WithPlan(old(state), old(script)[1].plans)
    {
      hide Base, Left, Shows, TallyOf, GatesOf, WithPlan, Heard, Stopped, Drafted;
      approved := false;
      Unmoved(G());
      for attempt := 0 to PLANNING_MAX_ATTEMPTS
        invariant !raised && Planning() && Drafted(old(G()), G()) && |script| <= |old(script)| && !approved
        invariant !G().hasPlan && G().refused == attempt
        invariant attempt == 0 ==> script == old(script) && state == old(state)
        invariant peaceful && |old(script)| >= 2 ==> attempt == 0 || !PlanningApproved(old(script)[1].plans.decision)
        invariant T().discoveries <= PLANNING_MAX_ATTEMPTS * G().replans + attempt
        invariant Rejects(old(script), PLANNING_MAX_ATTEMPTS) ==>
          && Rejects(script, PLANNING_MAX_ATTEMPTS - attempt)
          && AfterTurns(script, PLANNING_MAX_ATTEMPTS - attempt) == AfterTurns(old(script), PLANNING_MAX_ATTEMPTS)
      {
        ghost var gates := G();
        flow, approved := PlanTurn();
        DraftedThen(old(G()), gates, G());
        DraftedMeans(gates, G());
        if flow.Stop? || approved {
          return;
        }
      }
      flow := Go;
      if InStep(currentLabel) {
        Unstopped(flow);
      }
    }

    /** The label swap of a planning cap takes off designing, whatever the issue shows. */
    method ShowCap() returns (flow: Flow)
      requires Base() && !raised && InStep(PlanningLabel())
      modifies this`approvalSignal, this`ran, this`newComments, this`script, this`raised, this`labels, this`edits,
               this`currentLabel
      ensures raised <==> flow == Stop(Raised)
      ensures flow == EndOf(old(script)) && Stopped(flow)
      ensures Base() && T() == old(T()) && Quiet(old(G()), G())
      ensures flow.Go? && tidy ==> CapShows(Board(labels, edits), StrayLast(G()))
    {
      hide Base, T;
      if tidy {
        CapSwap(Board(labels, edits), PlanningLabel());
      }
      ghost var edited;
      flow, edited := SwapLabel({Designing}, NeedsHumanLabel);
    }

    /** The critic never approved: the run goes to a human. */
    method CapReached() returns (flow: Flow)
      requires Planning() && !raised && InStep(PlanningLabel()) && G().refused == PLANNING_MAX_ATTEMPTS && !G().hasPlan
      modifies this`approvalSignal, this`ran, this`newComments, this`script, this`raised, this`labels, this`edits,
               this`currentLabel
      ensures raised <==> flow == Stop(Raised)
      ensures flow.Stop? && Stopped(flow) && G().lastDesign == old(G()).lastDesign
      ensures flow.ending.Finished? <==> EndOf(old(script)).Go? && EndOf(Rest(old(script))).Go?
      ensures Undrained(old(G()), G())
      ensures flow.ending in {Finished(NeedsHuman, "planning_retry_cap"), Raised, Suspended}
    {
      hide Base, Stopped, Left, TallyOf, GatesOf, Heard, Told, Shows, CapShows, Quiet, Undrained;
      ghost var before := G();
      flow := Phase();
      ghost var gates := G();
      CapMeans(before, gates);
      if flow.Stop? {
        return;
      }
      flow := ShowCap();
      CapMeans(gates, G());
      UndrainedThen(before, gates, G());
      if flow.Stop? {
        return;
      }
      CapFinishes();
      flow := Stop(Finished(NeedsHuman, "planning_retry_cap"));
    }

    method OpenGate(gate: Gate)
      requires Base() && NoteAllowed(G(), Opened(gate))
      modifies this`approvalSignal, this`ran
      ensures Base() && T() == old(T()) && Quiet(old(G()).(open := Some(gate)), G()) && approvalSignal == None
    {
      hide TallyOf, GatesOf, GateSafe, Sound, Bounded, Passed, Blocked, Dedup, GatesAfter, TallyAfter;
      OpenedGates(G(), gate);
      Mark(Opened(gate));
    }

    /** Waits for a signal. */
    method WaitForSignal() returns (flow: Flow)
      requires Base() && !raised && approvalSignal == None && G().open.Some? && !G().canceling
      modifies this`approvalSignal, this`ran, this`newComments, this`script, this`raised
      ensures raised <==> flow == Stop(Raised)
      ensures flow in {Go, Stop(Raised), Stop(Suspended)}
      ensures Base() && T() == old(T()) && Quiet(old(G()), G()) && |script| <= |old(script)|
      ensures flow.Go? ==> approvalSignal.Some? && |script| < |old(script)|
      ensures flow == Stop(Suspended) ==> script == []
      ensures HearsNext(old(script)) ==>
        flow.Go? && script == Rest(old(script)) && approvalSignal == Heard(old(script), None)
      ensures InStep(currentLabel) ==> Stopped(flow)
      ensures peaceful && DecidedBy(old(script)) <= |old(script)| ==>
        flow.Go? && |script| == |old(script)| - DecidedBy(old(script)) && approvalSignal == Decision(old(script))
    {
      hide Base, Left, T, Stopped, Shows, Told, GatesOf, SignalAfter, Decision, DecidedBy, Quiet, Listened,
           Undrained;
      Unmoved(G());
      while approvalSignal == None
        invariant !raised && Base() && T() == old(T()) && Quiet(old(G()), G()) && |script| <= |old(script)|
        invariant approvalSignal.Some? ==> |script| < |old(script)|
        invariant HearsNext(old(script)) ==>
          || (script == old(script) && approvalSignal == None)
          || (script == Rest(old(script)) && approvalSignal == Heard(old(script), None))
        invariant peaceful && DecidedBy(old(script)) <= |old(script)| ==>
          if approvalSignal == None
          then |old(script)| - DecidedBy(old(script)) == |script| - DecidedBy(script) && Decision(script) == Decision(old(script))
          else |script| == |old(script)| - DecidedBy(old(script)) && approvalSignal == Decision(old(script))
        decreases |script|
      {
        DecisionStep(script);
        Known();
        ghost var gates := G();
        QuietMeans(old(G()), gates);
        flow := Listen();
        QuietThen(old(G()), gates, G());
        if flow.Stop? {
          return;
        }
      }
      flow := Go;
      if InStep(currentLabel) {
        StaysIn(flow);
      }
    }

    /** Opens a gate, which forgets any earlier signal, and waits for one. */
    method AwaitSignal(gate: Gate) returns (flow: Flow)
      requires Base() && !raised && NoteAllowed(G(), Opened(gate))
      modifies this`approvalSignal, this`ran, this`newComments, this`script, this`raised
      ensures raised <==> flow == Stop(Raised)
      ensures flow in {Go, Stop(Raised), Stop(Suspended)}
      ensures Base() && T() == old(T()) && |script| <= |old(script)|
      ensures Quiet(old(G()).(open := Some(gate)), G())
      ensures flow.Go? ==> approvalSignal.Some? && |script| < |old(script)|
      ensures flow == Stop(Suspended) ==> script == []
      ensures HearsNext(old(script)) ==>
        flow.Go? && script == Rest(old(script)) && approvalSignal == Heard(old(script), None)
      ensures InStep(currentLabel) ==> Stopped(flow)
      ensures peaceful && DecidedBy(old(script)) <= |old(script)| ==>
        flow.Go? && |script| == |old(script)| - DecidedBy(old(script)) && approvalSignal == Decision(old(script))
    {
      hide Base, Left, T, Stopped, Shows, Heard, Told, GatesOf, Decision, DecidedBy, HearsNext;
      OpenGate(gate);
      flow := WaitForSignal();
    }

    /** The gate takes the signal in its slot. */
    method Take(gate: Gate) returns (signal: Signal)
      requires Base() && approvalSignal.Some? && G().open == Some(gate) && !G().canceling
      modifies this`approvalSignal, this`ran
      ensures Base() && T() == old(T()) && signal == old(approvalSignal).value && approvalSignal == old(approvalSignal)
      ensures G() == GatesAfter(old(G()), Noted(Taken(gate, signal.kind)))
    {
      hide TallyOf, GatesOf, GateSafe, Dedup, Bounded, Passed, Blocked, HumanComments, Total, TallyAfter,
           GatesAfter;
      if gate.Design? {
        DesignTakenGates(G(), approvalSignal.value);
      } else {
        MergeTakenGates(G(), approvalSignal.value);
      }
      signal := approvalSignal.value;
      Mark(Taken(gate, signal.kind));
    }

    /** Design approved: what every later build builds. */
    ghost predicate Settled()
      reads `ran, `state, `plans, `approvedSpecRev, `approvedSpecMarkdown
    {
      && G().designPassed && !G().mergePassed && G().lastDesign == Some(Approve)
      && G().approved == Some((1 + G().revises, state.spec)) && PlanInState()
      && approvedSpecRev == Some(1 + G().revises) && approvedSpecMarkdown == Some(render(plans))
    }

    /** The report and the label that show the spec. */
    method ShowDesign() returns (flow: Flow)
      requires Planning() && !raised && InStep(PlanningLabel()) && G().hasPlan
      modifies this`approvalSignal, this`ran, this`newComments, this`script, this`raised, this`labels, this`edits,
               this`currentLabel
      ensures raised <==> flow == Stop(Raised)
      ensures Stopped(flow) && flow in {Go, Stop(Raised), Stop(Suspended)} && Planning() && T() == old(T())
      ensures Quiet(old(G()), G()) && Undrained(old(G()), G()) && G().hasPlan
      ensures flow.Go? <==> EndOf(old(script)).Go? && EndOf(Rest(old(script))).Go?
      ensures flow.Go? ==> InStep(AwaitingApproval) && script == Rest(Rest(old(script)))
      ensures peaceful && |old(script)| >= 2 ==> flow.Go?
    {
      hide Base, Stopped, Left, Shows, TallyOf, GatesOf, Heard, Told, AllOrderly, Quiet, Listened, Undrained;
      flow := Phase();
      ghost var gates := G();
      QuietMeans(old(G()), gates);
      PlanningMeans(old(G()), gates);
      if flow.Stop? {
        return;
      }
      flow := MoveLabel(PlanningLabel(), {Designing}, AwaitingApproval);
      QuietThen(old(G()), gates, G());
      PlanningMeans(gates, G());
    }

    /** Shows the spec and waits for the decision. */
    method OpenDesign() returns (flow: Flow)
      requires Planning() && !raised && InStep(PlanningLabel()) && G().hasPlan
      modifies this`approvalSignal, this`ran, this`newComments, this`script, this`raised, this`labels, this`edits,
               this`currentLabel
      ensures raised <==> flow == Stop(Raised)
      ensures Stopped(flow) && Planning()
      ensures Quiet(old(G()), G()) || Quiet(old(G()).(open := Some(Design)), G())
      ensures Undrained(old(G()), G())
      ensures flow.Go? ==> Quiet(old(G()).(open := Some(Design)), G()) && T() == old(T())
      ensures flow.Go? ==> InStep(AwaitingApproval) && approvalSignal.Some? && |script| < |old(script)|
      ensures EndOf(old(script)).Go? && EndOf(Rest(old(script))).Go? && HearsNext(Rest(Rest(old(script)))) ==>
        && flow.Go? && script == Rest(Rest(Rest(old(script))))
        && approvalSignal == Heard(Rest(Rest(old(script))), None)
      ensures flow in {Go, Stop(Raised), Stop(Suspended)}
      ensures peaceful && |old(script)| >= 2 && DecidedBy(old(script)[2..]) + 2 <= |old(script)| ==>
        && flow.Go? && |script| == |old(script)| - 2 - DecidedBy(old(script)[2..])
        && approvalSignal == Decision(old(script)[2..])
    {
      hide Base, Stopped, Left, Shows, TallyOf, GatesOf, Heard, Told, Decision, DecidedBy, Quiet, Undrained,
           HearsNext;
      flow := ShowDesign();
      if flow.Stop? {
        return;
      }
      ghost var gates := G();
      flow := AwaitSignal(Design);
      OpenThen(old(G()), gates, G(), Design);
      OpeningKeeps(gates, G(), Design);
    }

    /** Whatever is in the slot is dropped. */
    method Forget()
      requires Base()
      modifies this`approvalSignal, this`ran
      ensures Base() && T() == old(T()) && Quiet(old(G()), G()) && approvalSignal == None
    {
      hide TallyOf, GatesOf, GateSafe, Dedup, Sound, Bounded, Blocked, Passed, GatesAfter, TallyAfter;
      ClearedGates(G());
      Mark(Cleared);
    }

    /** The label says designing again; signals that came in meanwhile are dropped. */
    method BackToDesign() returns (flow: Flow)
      requires Base() && !raised && T().merges == 0 && InStep(AwaitingApproval)
      modifies this`approvalSignal, this`ran, this`newComments, this`script, this`raised, this`labels, this`edits,
               this`currentLabel
      ensures raised <==> flow == Stop(Raised)
      ensures Stopped(flow) && Undrained(old(G()), G())
      ensures flow.Go? ==> Base() && T() == old(T()) && Quiet(old(G()), G()) && InStep(Designing)
      ensures flow.Go? ==> approvalSignal == None && |script| <= |old(script)|
    {
      hide Base, T, GatesOf, Left, Shows, Heard, Told;
      flow := MoveLabel(AwaitingApproval, {AwaitingApproval}, Designing);
      if flow.Go? {
        Forget();
      }
    }

    /** A revise: the next revision is planned, and what else was signaled meanwhile is forgotten. */
    method StartRevision() returns (flow: Flow)
      requires Base() && !raised && T().merges == 0 && InStep(AwaitingApproval) && !StrayLast(G())
      modifies this`approvalSignal, this`ran, this`newComments, this`script, this`raised, this`labels, this`edits,
               this`currentLabel, this`latestSpecRev
      ensures raised <==> flow == Stop(Raised)
      ensures Stopped(flow) && Undrained(old(G()), G())
      ensures flow.Go? ==> Base() && T() == old(T()) && Quiet(old(G()), G()) && InStep(Designing)
      ensures flow.Go? ==> latestSpecRev == old(latestSpecRev) + 1 && |script| <= |old(script)|
    {
      hide TallyOf, GatesOf, GateSafe, Dedup, HumanComments, WithinBudget, Total;
      :- Phase();
      latestSpecRev := latestSpecRev + 1;
      flow := BackToDesign();
    }

    /** An approval fixes the revision and the text of the spec. */
    method SettleSpec()
      requires Base() && PlanInState()
      requires G().designPassed && !G().mergePassed && G().lastDesign == Some(Approve) && G().approved.None?
      requires latestSpecRev == 1 + G().revises
      modifies this`approvalSignal, this`ran, this`approvedSpecRev, this`approvedSpecMarkdown
      ensures Base() && T() == old(T()) && Settled()
      ensures G() == GatesAfter(old(G()), Noted(SpecApproved(latestSpecRev, state.spec)))
      ensures approvalSignal == old(approvalSignal)
    {
      hide TallyOf, GatesOf, GateSafe, Sound, Blocked, Passed, Bounded, Dedup, HumanComments, GatesAfter,
           TallyAfter;
      SettledGates(G(), latestSpecRev, state.spec);
      Mark(SpecApproved(latestSpecRev, state.spec));
      approvedSpecRev := Some(latestSpecRev);
      approvedSpecMarkdown := Some(render(plans));
    }

    /** The approval is settled, then reported. */
    method ApproveSpec() returns (flow: Flow)
      requires Base() && !raised && T().merges == 0 && InStep(AwaitingApproval) && PlanInState()
      requires G().designPassed && !G().mergePassed && G().lastDesign == Some(Approve) && G().approved.None?
      requires latestSpecRev == 1 + G().revises
      modifies this`approvalSignal, this`ran, this`newComments, this`script, this`raised, this`approvedSpecRev,
               this`approvedSpecMarkdown
      ensures raised <==> flow == Stop(Raised)
      ensures flow == EndOf(old(script)) && script == Rest(old(script)) && Undrained(old(G()), G())
      ensures peaceful && old(script) != [] ==> flow.Go?
      ensures approvalSignal == Heard(old(script), old(approvalSignal))
      ensures Stopped(flow) && Base() && T() == old(T()) && Settled()
      ensures G().fixes == old(G()).fixes && G().replans == old(G()).replans
      ensures G().canceling == old(G()).canceling && G().built == old(G()).built
      ensures G().talk.accepted == old(G()).talk.accepted && G().actions == old(G()).actions
    {
      hide Base, T, TallyOf, GatesOf, Left, Heard, Told, Shows, Stopped, HumanComments, GatesAfter;
      SettledGates(G(), latestSpecRev, state.spec);
      SettleSpec();
      flow := Phase();
    }

    /** A rejected or canceled design ends the run. */
    method CloseDesign(reason: string) returns (flow: Flow)
      requires Base() && !raised && T().merges == 0 && InStep(AwaitingApproval)
      requires G().lastDesign == Some(if G().canceling then Kind.Cancel else Reject) && CanceledBy(G().last, reason)
      modifies this`approvalSignal, this`ran, this`newComments, this`script, this`raised, this`labels, this`edits,
               this`currentLabel, this`markerPosted
      ensures raised <==> flow == Stop(Raised)
      ensures flow.Stop? && Stopped(flow) && Undrained(old(G()), G())
    {
      hide Base, T, GatesOf, Left, Shows, Heard, Told, Stopped;
      flow := Phase();
      if flow.Stop? {
        return;
      }
      flow := Close(AwaitingApproval, Status.Canceled, reason);
    }

    /** The design gate's decision; a fix or a rebuild signal only plans again. */
    method DecideDesign() returns (flow: Flow, again: bool)
      requires Planning() && !raised && PlanInState() && InStep(AwaitingApproval) && approvalSignal.Some?
      requires G().open == Some(Design)
      requires T().discoveries <= PLANNING_MAX_ATTEMPTS * (1 + G().replans) && G().hasPlan
      modifies this`approvalSignal, this`ran, this`newComments, this`script, this`raised, this`labels, this`edits,
               this`currentLabel, this`latestSpecRev, this`markerPosted, this`approvedSpecRev,
               this`approvedSpecMarkdown
      ensures raised <==> flow == Stop(Raised)
      ensures Stopped(flow) && (again ==> flow.Go? && |script| <= |old(script)|)
      ensures flow.Go? && again ==>
        Planning() && InStep(PlanningLabel()) && T().discoveries <= PLANNING_MAX_ATTEMPTS * G().replans
      ensures flow.Go? && again ==> !G().hasPlan && G().refused == 0
      ensures flow.Go? && !again ==>
        Underway() && InStep(AwaitingApproval) && !G().built && G().fixes == 0 && T().verifies == 0 && G().actions == 0
      ensures (flow.Stop? ==> !again) && Undrained(old(G()), G())
      ensures old(approvalSignal).value.kind.Approve? ==>
        && !again && flow == EndOf(old(script)) && script == Rest(old(script))
        && approvalSignal == Heard(old(script), old(approvalSignal)) && (peaceful && old(script) != [] ==> flow.Go?)
      ensures Stray(old(approvalSignal).value.kind) ==> again && StrayLast(G()) && script == old(script)
    {
      hide Base, T, GatesOf, Left, Shows, Heard, Told, PlanInState, GatesAfter;
      Known();
      DesignTakenGates(G(), approvalSignal.value);
      again := false;
      var signal := Take(Design);
      match signal.kind {
        case Revise =>
          flow := StartRevision();
          again := flow.Go?;
        case Reject | Cancel =>
          flow := CloseDesign(ReasonOf(signal));
        case Approve =>
          flow := ApproveSpec();
        case Fix | Rebuild =>
          flow, again := Go, true;
      }
    }

    /** One pass through planning and the gate. */
    method PlanAndDecide() returns (flow: Flow, again: bool)
      requires Planning() && !raised && InStep(PlanningLabel())
      requires T().discoveries <= PLANNING_MAX_ATTEMPTS * G().replans
      requires !G().hasPlan && G().refused == 0
      modifies this`approvalSignal, this`ran, this`newComments, this`script, this`raised, this`labels, this`edits,
               this`currentLabel, this`latestSpecRev, this`markerPosted, this`approvedSpecRev,
               this`approvedSpecMarkdown, this`state, this`plans
      ensures raised <==> flow == Stop(Raised)
      ensures Stopped(flow) && Undrained(old(G()), G()) && (flow.Stop? ==> !again)
      ensures again ==> Planning() && InStep(PlanningLabel()) && T().discoveries <= PLANNING_MAX_ATTEMPTS * G().replans
      ensures again ==> !G().hasPlan && G().refused == 0 && |script| < |old(script)|
      ensures flow.Go? && !again ==>
        Underway() && InStep(AwaitingApproval) && !G().built && G().fixes == 0 && T().verifies == 0 && G().actions == 0
      ensures (peaceful && |old(script)| >= 4 && PlanningApproved(old(script)[1].plans.decision)
               && DecidedBy(old(script)[4..]) + 5 <= |old(script)| && Approves(Decision(old(script)[4..]))) ==>
        && flow.Go? && !again && |script| == |old(script)| - 5 - DecidedBy(old(script)[4..])
        && state == WithPlan(old(state), old(script)[1].plans)
    {
      hide Base, T, GatesOf, Left, Shows, Stopped, Heard, Told, HearsNext, Rejects, AfterTurns, Settled,
           Unbuilt, PlanInState, WithPlan, DecidedBy, Decision, Quiet, Undrained, Drafted;
      again := false;
      var approved;
      flow, approved := PlanningLoop();
      ghost var gates := G();
      DraftedMeans(old(G()), gates);
      if flow.Stop? {
        return;
      }
      if !approved {
        flow := CapReached();
        UndrainedThen(old(G()), gates, G());
        return;
      }
      flow := OpenDesign();
      UndrainedThen(old(G()), gates, G());
      if flow.Stop? {
        return;
      }
      OpeningMeans(gates, G(), Design);
      gates := G();
      flow, again := DecideDesign();
      UndrainedThen(old(G()), gates, G());
    }

    /** `_run_design_gate`. */
    method DesignGate() returns (flow: Flow)
      requires Planning() && !raised && InStep(PlanningLabel()) && T().discoveries == 0
      requires !G().hasPlan && G().refused == 0
      modifies this`approvalSignal, this`ran, this`newComments, this`script, this`raised, this`labels, this`edits,
               this`currentLabel, this`latestSpecRev, this`markerPosted, this`approvedSpecRev,
               this`approvedSpecMarkdown, this`state, this`plans
      ensures raised <==> flow == Stop(Raised)
      ensures Stopped(flow)
      ensures Undrained(old(G()), G())
      ensures flow.Go? ==> Underway() && InStep(AwaitingApproval) && !G().built && G().fixes == 0 && T().verifies == 0
      ensures flow.Go? ==> G().actions == 0
      ensures (peaceful && |old(script)| >= 4 && PlanningApproved(old(script)[1].plans.decision)
               && DecidedBy(old(script)[4..]) + 5 <= |old(script)| && Approves(Decision(old(script)[4..]))) ==>
        && flow.Go? && |script| == |old(script)| - 5 - DecidedBy(old(script)[4..])
        && state == WithPlan(old(state), old(script)[1].plans)
    {
      hide Base, T, GatesOf, Stopped, Planning, Underway, InStep, WithPlan, DecidedBy, Decision, Undrained;
      Unmoved(G());
      while true
        invariant !raised && Undrained(old(G()), G())
        invariant !G().hasPlan && G().refused == 0
        invariant (peaceful && |old(script)| >= 4 && PlanningApproved(old(script)[1].plans.decision)
                   && DecidedBy(old(script)[4..]) + 5 <= |old(script)| && Approves(Decision(old(script)[4..]))) ==>
          script == old(script) && state == old(state)
        invariant Planning() && InStep(PlanningLabel()) && T().discoveries <= PLANNING_MAX_ATTEMPTS * G().replans
        decreases |script|
      {
        ghost var gates := G();
        var again;
        flow, again := PlanAndDecide();
        UndrainedThen(old(G()), gates, G());
        if !again {
          return;
        }
      }
    }

    // ---------- Build, verify, repair ----------

    /** A design was approved and the merge is still open. */
    ghost predicate Underway()
      reads `approvalSignal, `newComments, `issueComments, `hydrated, `ran, `state, `script,
            `plans, `approvedSpecRev, `approvedSpecMarkdown, `raised
    {
      Base() && T().merges == 0 && Settled() && !G().canceling && G().talk.accepted
    }

    /** A phase comment under the label shown. */
    method Report(ghost l: Label) returns (flow: Flow)
      requires Underway() && !raised && InStep(l)
      modifies this`approvalSignal, this`ran, this`newComments, this`script, this`raised
      ensures Stopped(flow)
      ensures flow == EndOf(old(script)) && script == Rest(old(script)) && (raised <==> flow == Stop(Raised))
      ensures peaceful && old(script) != [] ==> flow.Go?
      ensures approvalSignal == Heard(old(script), old(approvalSignal))
      ensures newComments == old(newComments) + Told(old(script))
      ensures Underway() && T() == old(T()) && Quiet(old(G()), G())
    {
      hide Base, T, GatesOf, Stopped, Left, Shows, Heard, Told;
      flow := Phase();
    }

    /** An activity on the approved design. */
    method Work(act: Act<Note>) returns (flow: Flow)
      requires Underway() && !raised && (act.Fixer? || act.PrCreator? || act.Reviewer?) && GateAllows(G(), act)
      requires Allowed(T().Stage().(setUp := true, tornDown := false), act)
      requires act.Fixer? ==> T().fixers < Total(state.attemptsByWp)
      modifies this`approvalSignal, this`ran, this`newComments, this`script, this`raised
      ensures flow == EndOf(old(script)) && script == Rest(old(script)) && (raised <==> flow == Stop(Raised))
      ensures peaceful && old(script) != [] ==> flow.Go?
      ensures approvalSignal == Heard(old(script), old(approvalSignal))
      ensures newComments == old(newComments) + Told(old(script))
      ensures Underway() && Quiet(old(G()), G()) && G().blocked == old(G()).blocked
      ensures T() == if flow == Stop(Suspended) then old(T())
                     else TallyAfter(old(T()), Event(act, flow.Go?)).(safe := old(T()).safe)
      ensures InStep(currentLabel) ==> Stopped(flow)
    {
      hide Base, Stopped, Left, TallyOf, TallyAfter, GatesOf, ActAfter, Heard, Told, Total, PlanInState,
           GateAllows, Allowed;
      flow := Step(act);
      if InStep(currentLabel) {
        StopsEarly(flow);
      }
    }

    /** A swap of the label shown. */
    method Relabel(ghost from: Label, remove: set<Label>, to: Label) returns (flow: Flow)
      requires Underway() && !raised && InStep(from) && (from in remove || from == to) && IsState(to) && to !in remove
      modifies this`approvalSignal, this`ran, this`newComments, this`script, this`raised, this`labels, this`edits,
               this`currentLabel
      ensures Stopped(flow)
      ensures flow == EndOf(old(script)) && script == Rest(old(script)) && (raised <==> flow == Stop(Raised))
      ensures peaceful && old(script) != [] ==> flow.Go?
      ensures approvalSignal == Heard(old(script), old(approvalSignal))
      ensures newComments == old(newComments) + Told(old(script))
      ensures Underway() && T() == old(T()) && Quiet(old(G()), G())
      ensures flow.Go? ==> InStep(to)
    {
      hide Base, T, GatesOf, Stopped, Left, Shows, Heard, Told;
      flow := MoveLabel(from, remove, to);
    }

    /** Notes the spec that is built next. */
    method Announce()
      requires Underway() && (G().actions == 0 ==> !CancelRequested())
      modifies this`approvalSignal, this`ran
      ensures Underway() && T() == old(T()) && approvalSignal == old(approvalSignal)
      ensures G() == old(G()).(building := true)
    {
      hide TallyOf, GatesOf, GateSafe, Dedup, Sound, Bounded, Blocked, Passed, GatesAfter, TallyAfter;
      AnnouncedGates(G(), state.spec);
      Mark(BuildOf(state.spec));
    }

    /** The build activity, once the spec is announced. */
    method BuildNow() returns (flow: Flow)
      requires Underway() && !raised && G().building
      modifies this`approvalSignal, this`ran, this`newComments, this`script, this`raised
      ensures flow == EndOf(old(script)) && script == Rest(old(script)) && (raised <==> flow == Stop(Raised))
      ensures peaceful && old(script) != [] ==> flow.Go?
      ensures approvalSignal == Heard(old(script), old(approvalSignal))
      ensures newComments == old(newComments) + Told(old(script))
      ensures Underway() && Quiet(old(G()).(built := G().built), G()) && G().blocked == old(G()).blocked
      ensures T() == if flow == Stop(Suspended) then old(T())
                     else old(T()).(freshness := Unchecked, built := old(T()).built || flow.Go?)
    {
      hide Base, TallyOf, TallyAfter, GatesOf, ActAfter, Heard, Told, PlanInState;
      flow := Step(Build);
      if flow != Stop(Suspended) {
        BuildSteps(old(T()), old(G()), flow.Go?, G());
      }
    }

    /** Announces the spec and builds it. */
    method RunBuild(ghost l: Label) returns (flow: Flow)
      requires Underway() && !raised && InStep(l) && (G().actions == 0 ==> !CancelRequested())
      modifies this`approvalSignal, this`ran, this`newComments, this`script, this`raised
      ensures Stopped(flow)
      ensures flow == EndOf(old(script)) && script == Rest(old(script)) && (raised <==> flow == Stop(Raised))
      ensures peaceful && old(script) != [] ==> flow.Go?
      ensures approvalSignal == Heard(old(script), old(approvalSignal))
      ensures newComments == old(newComments) + Told(old(script))
      ensures Underway() && Quiet(old(G()).(built := G().built), G()) && G().blocked == old(G()).blocked
      ensures T() == if flow == Stop(Suspended) then old(T())
                     else old(T()).(freshness := Unchecked, built := old(T()).built || flow.Go?)
    {
      hide Base, Settled, T, GatesOf, Heard, Told, Stopped, Left;
      Announce();
      flow := BuildNow();
      StopsEarly(flow);
    }

    /** What a reply reported is noted before it is merged. */
    method NoteReport(blocking: bool)
      requires Latched()
      modifies this`approvalSignal, this`ran
      ensures Latched() && T() == old(T()) && approvalSignal == old(approvalSignal)
      ensures Quiet(old(G()), G()) && G().blocked == (old(G()).blocked || blocking)
    {
      hide TallyOf, GatesOf, GateSafe, GatesAfter, TallyAfter;
      ReportedGates(G(), blocking);
      Mark(Reported(blocking));
    }

    /** A build reply is noted and merged. */
    method MergeBuilt(reply: BuildReply)
      requires Underway()
      requires named ==> EvidenceNamed(MergeBuild(state, reply), names)
      modifies this`approvalSignal, this`ran, this`state
      ensures Underway() && T() == old(T()) && approvalSignal == old(approvalSignal) && Quiet(old(G()), G())
      ensures state == MergeBuild(old(state), reply)
      ensures G().blocked == (old(G()).blocked || reply.testerFindings != [])
    {
      hide Dedup, HumanComments, TallyOf, GatesOf, GateSafe, EvidenceNamed, ScriptNamed, Blocked, Total;
      BuildBlocks(state, reply);
      NoteReport(reply.testerFindings != []);
      state := MergeBuild(state, reply);
    }

    /** The build activity; what it returns is merged. */
    method BuildStage(ghost l: Label) returns (flow: Flow)
      requires Underway() && InStep(l) && (G().actions == 0 ==> !CancelRequested())
      requires !raised
      modifies this`approvalSignal, this`ran, this`newComments, this`script, this`raised, this`state
      ensures Stopped(flow)
      ensures flow == EndOf(old(script)) && script == Rest(old(script)) && (raised <==> flow == Stop(Raised))
      ensures peaceful && old(script) != [] ==> flow.Go?
      ensures approvalSignal == Heard(old(script), old(approvalSignal))
      ensures newComments == old(newComments) + Told(old(script))
      ensures Underway() && Quiet(old(G()).(built := G().built), G())
      ensures T() == if flow == Stop(Suspended) then old(T())
                     else old(T()).(freshness := Unchecked, built := old(T()).built || flow.Go?)
      ensures state == if flow.Go? then MergeBuild(old(state), old(script)[0].build) else old(state)
      ensures flow.Go? ==> G().blocked == (old(G()).blocked || old(script)[0].build.testerFindings != [])
    {
      hide Left, Base, InStep, Settled, TallyOf, GatesOf, MergeBuild, Stopped, Heard, Told, Quiet;
      var reply := if script == [] then BuildReply("", [], [], []) else script[0].build;
      BuildNames();
      flow := RunBuild(l);
      if flow.Go? {
        ghost var gates := G();
        MergeBuilt(reply);
        ThenBuilt(old(G()), gates, G());
        Unstopped(flow);
      }
    }

    /** The next reply of a build names nobody new. */
    lemma BuildNames()
      requires Base()
      ensures named && script != [] ==> EvidenceNamed(MergeBuild(state, script[0].build), names)
    {
      hide EvidenceNamed, Latched, Sound, Explained;
      if named && script != [] {
        BuildKeepsNames(state, script[0].build, names);
      }
    }

    /** Runs the verify activity, whose result is `after`. */
    method Conduct(after: State) returns (flow: Flow)
      requires Base() && !raised && T().built && T().verifies <= T().fixers + G().actions
      requires !G().canceling && (Passed(after) ==> !G().blocked)
      requires Sound(TallyAfter(T(), Event(Act<Note>.Verify(Passed(after)), true)), G().fixes, G().replans, after)
      requires (named ==> EvidenceNamed(after, names)) && Blocked(after) == Blocked(state)
      modifies this`approvalSignal, this`ran, this`newComments, this`script, this`raised, this`state
      ensures flow == EndOf(old(script)) && script == Rest(old(script)) && (raised <==> flow == Stop(Raised))
      ensures peaceful && old(script) != [] ==> flow.Go?
      ensures approvalSignal == Heard(old(script), old(approvalSignal))
      ensures newComments == old(newComments) + Told(old(script))
      ensures Base() && Quiet(old(G()), G()) && G().blocked == old(G()).blocked
      ensures T() == if flow == Stop(Suspended) then old(T())
                     else TallyAfter(old(T()), Event(Act<Note>.Verify(Passed(after)), flow.Go?)).(safe := old(T()).safe)
      ensures state == if flow.Go? then after else old(state)
    {
      hide TallyOf, TallyAfter, GatesOf, GateSafe, Latched, Sound, Explained, Blocked, Passed, EvidenceNamed,
           RepliesNamed, Heard, Told, ActAfter;
      RaisedIsSound<Note>(T(), G().fixes, G().replans, state, Passed(after));
      flow := Activity(Verify(Passed(after)));
      if flow != Stop(Suspended) {
        QuietActs(old(G()), Act.Verify(Passed(after)), flow.Go?, G());
        VerdictKeeps(old(T()), old(G()), G(), state, after, flow.Go?);
      }
      if flow.Go? {
        state := after;
      }
    }

    /** The verify activity on the approved design. */
    method Judge(after: State) returns (flow: Flow)
      requires Underway() && T().built && T().verifies <= T().fixers + G().actions && (Passed(after) ==> !G().blocked)
      requires Sound(TallyAfter(T(), Event(Act<Note>.Verify(Passed(after)), true)), G().fixes, G().replans, after)
      requires (named ==> EvidenceNamed(after, names)) && after.spec == state.spec && Blocked(after) == Blocked(state)
      requires !raised
      modifies this`approvalSignal, this`ran, this`newComments, this`script, this`raised, this`state
      ensures flow == EndOf(old(script)) && script == Rest(old(script)) && (raised <==> flow == Stop(Raised))
      ensures peaceful && old(script) != [] ==> flow.Go?
      ensures approvalSignal == Heard(old(script), old(approvalSignal))
      ensures newComments == old(newComments) + Told(old(script))
      ensures Underway() && Quiet(old(G()), G()) && G().blocked == old(G()).blocked
      ensures flow.Go? ==> T().freshness == Verified(Passed(after))
      ensures flow.Go? ==> T().verifies == old(T()).verifies + 1 && T().fixers == old(T()).fixers
      ensures Keeps(old(T()), T())
      ensures state == if flow.Go? then after else old(state)
    {
      hide Base, TallyOf, GatesOf, Sound, Blocked, Passed, EvidenceNamed, Heard, Told;
      flow := Conduct(after);
    }

    /** The verify activity on cleared evidence: it passes iff its own evidence is good and no build or
        fixer turn so far reported anything that blocks. */
    method VerifyStage(ghost l: Label) returns (flow: Flow)
      requires Underway() && !raised && InStep(l) && T().built && T().verifies <= T().fixers + G().actions
      modifies this`approvalSignal, this`ran, this`newComments, this`script, this`raised, this`state
      ensures Stopped(flow)
      ensures flow == EndOf(old(script)) && script == Rest(old(script)) && (raised <==> flow == Stop(Raised))
      ensures peaceful && old(script) != [] ==> flow.Go?
      ensures approvalSignal == Heard(old(script), old(approvalSignal))
      ensures newComments == old(newComments) + Told(old(script))
      ensures Underway() && Quiet(old(G()), G()) && G().blocked == old(G()).blocked
      ensures flow.Go? ==> T().freshness == Verified(Passed(state))
      ensures flow.Go? ==> T().verifies == old(T()).verifies + 1 && T().fixers == old(T()).fixers
      ensures Keeps(old(T()), T())
      ensures flow.Go? ==> state == VerifyCycle(old(state), old(script)[0].evidence)
      ensures flow.Go? ==> (Passed(state) <==> EvidenceClean(old(state), old(script)[0].evidence) && !G().blocked)
    {
      hide Stopped, Left, Latched, Bounded, Settled, VerifyCycle, Passed, EvidenceClean, TallyOf,
           GatesOf, Sound, Blocked;
      if script == [] {
        StopsEarly(Stop(Suspended));
        return Stop(Suspended);
      }
      var ev := script[0].evidence;
      var after := RunVerify(state, ev);
      VerifyCounts<Note>(T(), G().fixes, G().replans, state, ev);
      VerdictFromEvidence(state, ev);
      VerifyNames();
      flow := Judge(after);
      StopsEarly(flow);
    }

    lemma VerifyNames()
      requires Base()
      ensures named && script != [] ==> EvidenceNamed(VerifyCycle(state, script[0].evidence), names)
      ensures script != [] ==> Blocked(VerifyCycle(state, script[0].evidence)) == Blocked(state)
    {
      hide EvidenceNamed, Latched, Sound, Explained, VerifyCycle;
      if script != [] {
        CycleCoverage(state, script[0].evidence);
        if named {
          VerifyKeepsNames(state, script[0].evidence, names);
        }
      }
    }

    /** A fixer reply is noted and merged; unlike in a prompt run nothing is dropped. */
    method MergeFixed(reply: FixerReply)
      requires Underway()
      requires named ==> EvidenceNamed(MergeFixer(state, reply), names)
      modifies this`approvalSignal, this`ran, this`state
      ensures Underway() && T() == old(T()) && approvalSignal == old(approvalSignal) && Quiet(old(G()), G())
      ensures state == MergeFixer(old(state), reply)
      ensures G().blocked == (old(G()).blocked || AnyBlocking(reply.recon))
    {
      hide Dedup, HumanComments, TallyOf, GatesOf, GateSafe, EvidenceNamed, ScriptNamed, Blocked,
           AnyBlocking, Total;
      FixerBlocks(state, reply);
      NoteReport(AnyBlocking(reply.recon));
      state := MergeFixer(state, reply);
    }

    /** The fixer activity. */
    method RunFixer(ghost l: Label) returns (flow: Flow)
      requires Underway() && !raised && InStep(l) && !T().freshness.Unchecked? && T().fixers < Total(state.attemptsByWp)
      modifies this`approvalSignal, this`ran, this`newComments, this`script, this`raised
      ensures Stopped(flow)
      ensures flow == EndOf(old(script)) && script == Rest(old(script)) && (raised <==> flow == Stop(Raised))
      ensures peaceful && old(script) != [] ==> flow.Go?
      ensures approvalSignal == Heard(old(script), old(approvalSignal))
      ensures newComments == old(newComments) + Told(old(script))
      ensures Underway() && Quiet(old(G()), G()) && G().blocked == old(G()).blocked
      ensures T() == if flow == Stop(Suspended) then old(T())
                     else old(T()).(freshness := Unchecked, fixers := old(T()).fixers + 1)
    {
      hide Base, PlanInState, Stopped, Left, TallyOf, GatesOf, Heard, Told, Total;
      flow := Work(Fixer);
    }

    /** A charged fixer turn. */
    method FixerTurn(ghost l: Label) returns (flow: Flow)
      requires Underway() && !raised && InStep(l) && !T().freshness.Unchecked? && T().fixers < Total(state.attemptsByWp)
      modifies this`approvalSignal, this`ran, this`newComments, this`script, this`raised, this`state
      ensures Stopped(flow)
      ensures flow == EndOf(old(script)) && script == Rest(old(script)) && (raised <==> flow == Stop(Raised))
      ensures peaceful && old(script) != [] ==> flow.Go?
      ensures approvalSignal == Heard(old(script), old(approvalSignal))
      ensures newComments == old(newComments) + Told(old(script))
      ensures Underway() && Quiet(old(G()), G())
      ensures T() == if flow == Stop(Suspended) then old(T())
                     else old(T()).(freshness := Unchecked, fixers := old(T()).fixers + 1)
      ensures state == if flow.Go? then MergeFixer(old(state), old(script)[0].fixer) else old(state)
      ensures flow.Go? ==> G().blocked == (old(G()).blocked || AnyBlocking(old(script)[0].fixer.recon))
    {
      hide Left, Base, InStep, Underway, T, GatesOf, MergeFixer, AnyBlocking, Total, Stopped, Heard, Told,
           Quiet;
      var reply := if script == [] then FixerReply(FixerDecision("", ""), []) else script[0].fixer;
      FixerNames();
      flow := RunFixer(l);
      if flow.Go? {
        ghost var gates := G();
        MergeFixed(reply);
        QuietThen(old(G()), gates, G());
        Unstopped(flow);
      }
    }

    lemma FixerNames()
      requires Underway()
      ensures named && script != [] ==> EvidenceNamed(MergeFixer(state, script[0].fixer), names)
    {
      hide EvidenceNamed, Latched, Sound, Explained;
      if named && script != [] {
        FixerKeepsNames(state, script[0].fixer, names);
      }
    }

    /** The run goes to a human from the verify loop. */
    method HandOver(reason: string) returns (flow: Flow)
      requires Underway() && !raised && InStep(Verifying) && G().actions == 0 && HandsOver(T().freshness, state, reason)
      modifies this`approvalSignal, this`ran, this`newComments, this`script, this`raised, this`labels, this`edits,
               this`currentLabel
      ensures raised <==> flow == Stop(Raised)
      ensures flow in {Stop(Finished(NeedsHuman, reason)), Stop(Raised), Stop(Suspended)} && Stopped(flow)
      ensures Undrained(old(G()), G())
    {
      hide Base, Stopped, Left, TallyOf, GatesOf, Heard, Told, PlanInState, UsedUp, StateLabels;
      flow := Report(Verifying);
      if flow.Stop? {
        return;
      }
      :- Relabel(Verifying, {Verifying}, NeedsHumanLabel);
      Finishes(NeedsHuman, reason);
      flow := Stop(Finished(NeedsHuman, reason));
    }

    /** A charge of the repair budget: checked before an automatic repair, unchecked after a human asked
        for a fix, which has just raised the limit by one. */
    method Charge(ghost human: bool)
      requires Underway() && (if human then G().fixes > 0 else G().fixes == 0 && !Exhausted(state))
      requires human ==> Sound(T(), G().fixes - 1, G().replans, state)
      modifies this`state
      ensures Underway() && T().fixers < Total(state.attemptsByWp) && state == ChargeFixer(old(state))
    {
      hide Dedup, HumanComments, TallyOf, GatesOf, GateSafe, Charged, ChargedWps, ChargedPredicates, Exhausted,
           WithinBudget, Total, EvidenceNamed, ScriptNamed;
      if human {
        HumanChargeIsSound(T(), G().fixes - 1, G().replans, state);
      } else {
        ChargeIsSound(T(), G().replans, state);
      }
      if named {
        ChargedAreNamed(state, names);
      }
      state := RecordFixerAttempt(state);
    }

    /** One automatic repair: report, charge, fix. */
    method RepairTurn() returns (flow: Flow)
      requires Underway() && !raised && InStep(Verifying) && G().fixes == 0 && !Exhausted(state) && !Passed(state)
      requires T().freshness == Verified(false)
      modifies this`approvalSignal, this`ran, this`newComments, this`script, this`raised, this`state
      ensures raised <==> flow == Stop(Raised)
      ensures Stopped(flow) && Underway() && Quiet(old(G()), G())
      ensures flow in {Go, Stop(Raised), Stop(Suspended)}
      ensures flow.Go? ==>
        |script| < |old(script)| && T().fixers == old(T()).fixers + 1 && T().verifies == old(T()).verifies
      ensures flow.Go? ==> exists reply :: state == MergeFixer(ChargeFixer(old(state)), reply)
      ensures Keeps(old(T()), T()) && (flow.Go? ==> T().freshness == Unchecked)
    {
      hide Base, Left, InStep, Stopped, Exhausted, Charged, TallyOf, GatesOf, Passed, Settled, Heard, Told,
           ChargeFixer, MergeFixer, Total, AnyBlocking, Quiet, Undrained;
      flow := Report(Verifying);
      if flow.Stop? {
        return;
      }
      ghost var gates := G();
      QuietMeans(old(G()), gates);
      Charge(false);
      flow := FixerTurn(Verifying);
      QuietThen(old(G()), gates, G());
    }

    /** A repair, unless the budget is used up or the fixer gives up. */
    method RepairOrHandOver() returns (flow: Flow)
      requires Underway() && !raised && InStep(Verifying) && G().fixes == 0 && !Passed(state)
      requires T().freshness == Verified(false) && G().actions == 0
      modifies this`approvalSignal, this`ran, this`newComments, this`script, this`raised, this`state, this`labels,
               this`edits, this`currentLabel
      ensures raised <==> flow == Stop(Raised)
      ensures Stopped(flow) && Undrained(old(G()), G())
      ensures flow.Go? ==> Underway() && InStep(Verifying) && Quiet(old(G()), G()) && |script| < |old(script)|
      ensures flow.Go? ==> T().fixers == old(T()).fixers + 1 && T().verifies == old(T()).verifies
      ensures flow.Go? ==> DecisionEscalation(state).None? && Keeps(old(T()), T())
    {
      hide Base, Left, InStep, T, G, Exhausted, Passed, ChargeFixer, MergeFixer;
      if Exhausted(state) {
        ExhaustedIff(state);
        flow := HandOver("fixer_budget_exhausted");
        return;
      }
      flow := RepairTurn();
      if flow.Stop? {
        return;
      }
      var escalation := DecisionEscalation(state);
      if escalation.Some? {
        EscalationIff(state, escalation.value);
        flow := HandOver(escalation.value);
      }
    }

    lemma VerdictByState()
      requires Base()
      ensures T().freshness.Unchecked? || T().freshness.passed == Passed(state)
    {}

    lemma BlockedByState()
      requires Base()
      ensures G().blocked == Blocked(state)
    {}

    /** One verify cycle, reported. */
    method VerifyTurn() returns (flow: Flow)
      requires Underway() && !raised && InStep(Verifying) && T().built && T().verifies <= T().fixers + G().actions
      modifies this`approvalSignal, this`ran, this`newComments, this`script, this`raised, this`state
      ensures raised <==> flow == Stop(Raised)
      ensures flow in {Go, Stop(Raised), Stop(Suspended)} && Stopped(flow)
      ensures Underway() && Quiet(old(G()), G())
      ensures flow.Go? ==> |script| < |old(script)| && T().freshness == Verified(Passed(state))
      ensures flow.Go? ==> T().verifies == old(T()).verifies + 1 && T().fixers == old(T()).fixers
      ensures flow.Go? ==> exists ev ::
        state == VerifyCycle(old(state), ev) && (Passed(state) <==> EvidenceClean(old(state), ev) && !G().blocked)
      ensures Keeps(old(T()), T())
      ensures peaceful && |old(script)| >= 2 ==> flow.Go? && |script| == |old(script)| - 2
      ensures peaceful && |old(script)| >= 2 ==>
        (Passed(state) <==> EvidenceClean(old(state), old(script)[1].evidence) && !G().blocked) && G().blocked == old(G()).blocked
    {
      hide Base, Left, InStep, T, G, EvidenceClean, VerifyCycle, Passed;
      BlockedByState();
      flow := Report(Verifying);
      BlockedByState();
      if flow.Stop? {
        return;
      }
      flow := VerifyStage(Verifying);
    }

    /** Verify and repair. Nothing is ever dropped here: the loop goes on to the pull request only in a
        run in which no build and no fixer turn so far, this loop's included, reported a tester finding
        or a blocking reconciliation finding. */
    method Repair() returns (flow: Flow)
      requires Underway() && !raised && InStep(Verifying) && G().fixes == 0 && G().actions == 0
      requires T().built && T().verifies <= T().fixers
      modifies this`approvalSignal, this`ran, this`newComments, this`script, this`raised, this`labels, this`edits,
               this`currentLabel, this`state
      ensures raised <==> flow == Stop(Raised)
      ensures Stopped(flow) && Undrained(old(G()), G())
      ensures flow.Go? ==> Underway() && InStep(Verifying) && Quiet(old(G()), G()) && T().freshness == Verified(true)
      ensures flow.Go? ==>
        Passed(state) && !G().blocked && state.testerFindings == [] && !AnyBlocking(state.reconFindings)
      ensures old(G()).blocked ==> flow.Stop?
      ensures flow.Go? ==> Keeps(old(T()), T())
      ensures peaceful && |old(script)| >= 3 && EvidenceClean(old(state), old(script)[1].evidence) && !old(G()).blocked ==>
        flow.Go? && |script| == |old(script)| - 3
      ensures flow.Go? ==> G().actions == 0
    {
      hide Base, Left, InStep, T, GatesOf, Exhausted, Settled, VerifyCycle, Passed, EvidenceClean, Stopped,
           Heard, Told, HandsOver, Quiet, Undrained;
      Unmoved(G());
      while true
        invariant !raised && G().fixes == 0 && G().actions == 0
        invariant Underway() && InStep(Verifying) && Quiet(old(G()), G()) && T().verifies <= T().fixers
        invariant Keeps(old(T()), T())
        invariant peaceful && |old(script)| >= 3 && EvidenceClean(old(state), old(script)[1].evidence) && !old(G()).blocked ==>
          script == old(script) && state == old(state) && !G().blocked
        decreases |script|
      {
        ghost var gates := G();
        flow := VerifyTurn();
        QuietThen(old(G()), gates, G());
        QuietMeans(old(G()), G());
        if flow.Stop? {
          return;
        }
        gates := G();
        if Passed(state) {
          BlockedByState();
          flow := Report(Verifying);
          BlockedByState();
          QuietThen(old(G()), gates, G());
          QuietMeans(old(G()), G());
          return;
        }
        flow := RepairOrHandOver();
        QuietThen(old(G()), gates, G());
        if flow.Stop? {
          return;
        }
        QuietMeans(old(G()), G());
      }
    }

    /** The build is reported; a cancel latched by then ends the run. */
    method StartBuild() returns (flow: Flow)
      requires Underway() && !raised && InStep(Label.Building) && !G().built
      modifies this`approvalSignal, this`ran, this`newComments, this`script, this`raised, this`labels, this`edits,
               this`currentLabel, this`markerPosted
      ensures raised <==> flow == Stop(Raised)
      ensures Stopped(flow) && Undrained(old(G()), G())
      ensures flow.Go? ==> Underway() && InStep(Label.Building) && T() == old(T()) && Quiet(old(G()), G())
      ensures flow.Go? ==> !CancelRequested() && G().blocked == old(G()).blocked
      ensures peaceful && old(script) != [] ==> flow.Go? && script == Rest(old(script))
    {
      hide Base, Left, T, Shows, Heard, Told, GatesOf;
      BlockedByState();
      flow := Report(Label.Building);
      if flow.Stop? {
        return;
      }
      NoCancelLatched();
      var cancel := CheckCancel();
      if cancel {
        flow := CancelRun(Label.Building);
        return;
      }
      BlockedByState();
    }

    /** The first build, unless a cancel is latched by then. */
    method FirstBuild() returns (flow: Flow)
      requires Underway() && !raised && InStep(Label.Building) && !G().built
      modifies this`approvalSignal, this`ran, this`newComments, this`script, this`raised, this`labels, this`edits,
               this`currentLabel, this`state, this`markerPosted
      ensures raised <==> flow == Stop(Raised)
      ensures Stopped(flow) && Undrained(old(G()), G())
      ensures flow.Go? ==> Underway() && InStep(Label.Building) && Quiet(old(G()).(built := G().built), G())
      ensures flow.Go? ==> T() == old(T()).(freshness := Unchecked, built := true)
      ensures peaceful && |old(script)| >= 2 ==>
        && flow.Go? && |script| == |old(script)| - 2 && state == MergeBuild(old(state), old(script)[1].build)
        && G().blocked == (old(G()).blocked || old(script)[1].build.testerFindings != [])
      ensures flow.Go? ==> G().fixes == old(G()).fixes && G().actions == old(G()).actions
    {
      hide Base, Left, InStep, T, GatesOf, MergeBuild, Settled, Stopped, Heard, Told, Quiet, Undrained;
      flow := StartBuild();
      if flow.Stop? {
        return;
      }
      ghost var gates := G();
      BlockedByState();
      QuietMeans(old(G()), gates);
      flow := BuildStage(Label.Building);
      BuiltThen(old(G()), gates, G());
    }

    /** The build is reported, and the label says that its verify begins. */
    method ShowBuilt() returns (flow: Flow)
      requires Underway() && !raised && InStep(Label.Building)
      modifies this`approvalSignal, this`ran, this`newComments, this`script, this`raised, this`labels, this`edits,
               this`currentLabel
      ensures raised <==> flow == Stop(Raised)
      ensures Stopped(flow) && Underway() && T() == old(T()) && Quiet(old(G()), G())
      ensures flow.Go? ==> InStep(Verifying)
      ensures peaceful && |old(script)| >= 2 ==> flow.Go? && |script| == |old(script)| - 2
      ensures Undrained(old(G()), G()) && G().fixes == old(G()).fixes && G().actions == old(G()).actions
    {
      hide Base, Left, InStep, T, GatesOf, Settled, Stopped, Heard, Told;
      flow := Report(Label.Building);
      if flow.Stop? {
        return;
      }
      flow := Relabel(Label.Building, {Label.Building}, Verifying);
    }

    /** `_run_build_verify`. */
    method BuildVerify() returns (flow: Flow)
      requires Underway() && !raised && InStep(Label.Building) && !G().built && G().fixes == 0
      requires T().verifies <= T().fixers && G().actions == 0
      modifies this`approvalSignal, this`ran, this`newComments, this`script, this`raised, this`labels, this`edits,
               this`currentLabel, this`state, this`markerPosted
      ensures raised <==> flow == Stop(Raised)
      ensures Stopped(flow) && Undrained(old(G()), G())
      ensures flow.Go? ==>
        Underway() && InStep(Verifying) && T().freshness == Verified(true) && Passed(state) && T().built
      ensures flow.Go? ==> G().actions == 0
      ensures peaceful && |old(script)| >= 7 && BuildsWell(old(state), old(script)[1].build, old(script)[5].evidence) ==>
        flow.Go? && |script| == |old(script)| - 7
    {
      hide Base, Left, InStep, T, GatesOf, VerifyCycle, Passed, Settled, Stopped, MergeBuild, EvidenceClean,
           Blocked, Heard, Told, Quiet, Undrained;
      ghost var ahead := script;
      WhatIsLeft();
      BlockedByState();
      flow := FirstBuild();
      if flow.Stop? {
        return;
      }
      BlockedByState();
      ghost var gates := G();
      flow := ShowBuilt();
      UndrainedThen(old(G()), gates, G());
      if flow.Stop? {
        return;
      }
      BlockedByState();
      if peaceful && |ahead| >= 7 {
        Further(ahead, 4);
      }
      gates := G();
      flow := Repair();
      UndrainedThen(old(G()), gates, G());
    }

    // ---------- Review and the merge gate ----------

    /** The labels a review can start from. */
    predicate ReviewStart(l: Label) {
      l in {Verifying, Label.Fixing, Label.Building, AwaitingMerge}
    }

    /** The reviewer judges verified code. */
    method ReviewStage(ghost l: Label) returns (flow: Flow)
      requires Underway() && !raised && InStep(l) && T().proposed && !T().freshness.Unchecked?
      modifies this`approvalSignal, this`ran, this`newComments, this`script, this`raised
      ensures Stopped(flow)
      ensures flow == EndOf(old(script)) && script == Rest(old(script)) && (raised <==> flow == Stop(Raised))
      ensures peaceful && old(script) != [] ==> flow.Go?
      ensures approvalSignal == Heard(old(script), old(approvalSignal))
      ensures newComments == old(newComments) + Told(old(script))
      ensures Underway() && Quiet(old(G()), G())
      ensures flow.Go? ==> T().freshness == Reviewed(old(T()).freshness.passed)
      ensures T() == old(T()).(freshness := T().freshness)
    {
      hide Base, Settled, Stopped, Left, TallyOf, GatesOf, Heard, Told;
      flow := Work(Reviewer);
    }

    /** The label and the report that say a review begins. */
    method StartReview() returns (flow: Flow)
      requires Underway() && !raised && InStep(currentLabel) && ReviewStart(currentLabel)
      modifies this`approvalSignal, this`ran, this`newComments, this`script, this`raised, this`labels, this`edits,
               this`currentLabel
      ensures raised <==> flow == Stop(Raised)
      ensures flow in {Go, Stop(Raised), Stop(Suspended)} && Stopped(flow)
      ensures Underway() && T() == old(T()) && Quiet(old(G()), G())
      ensures flow.Go? ==> InStep(Reviewing) && |script| < |old(script)|
      ensures peaceful && |old(script)| >= 2 ==> flow.Go? && |script| == |old(script)| - 2
    {
      hide Base, Left, Settled, T, Heard, Stopped, Shows;
      flow := Relabel(currentLabel, {Verifying, Label.Fixing, Label.Building, AwaitingMerge}, Reviewing);
      if flow.Stop? {
        return;
      }
      flow := Report(Reviewing);
    }

    /** From verified code to an open review, shown as such. */
    method Review() returns (flow: Flow)
      requires Underway() && !raised && InStep(currentLabel) && ReviewStart(currentLabel) && T().proposed
      requires !T().freshness.Unchecked?
      modifies this`approvalSignal, this`ran, this`newComments, this`script, this`raised, this`labels, this`edits,
               this`currentLabel
      ensures raised <==> flow == Stop(Raised)
      ensures flow in {Go, Stop(Raised), Stop(Suspended)} && Stopped(flow)
      ensures Underway() && Quiet(old(G()), G())
      ensures flow.Go? ==> InStep(AwaitingMerge) && |script| < |old(script)|
      ensures flow.Go? ==> T().freshness.Reviewed? && Keeps(old(T()), T())
      ensures peaceful && |old(script)| >= 5 ==> flow.Go? && |script| == |old(script)| - 5
    {
      hide Base, Left, InStep, Settled, T, G, Heard, Told, Stopped;
      flow := StartReview();
      if flow.Stop? {
        return;
      }
      :- ReviewStage(Reviewing);
      :- Report(Reviewing);
      flow := Relabel(Reviewing, {Reviewing}, AwaitingMerge);
    }

    /** Opens the merge gate and waits. */
    method OpenMerge() returns (flow: Flow)
      requires Underway() && !raised && InStep(AwaitingMerge)
      modifies this`approvalSignal, this`ran, this`newComments, this`script, this`raised
      ensures raised <==> flow == Stop(Raised)
      ensures flow in {Go, Stop(Raised), Stop(Suspended)} && Stopped(flow)
      ensures Underway() && T() == old(T()) && Quiet(old(G()).(open := Some(Merge)), G())
      ensures flow.Go? ==> approvalSignal.Some? && |script| < |old(script)|
      ensures peaceful && DecidedBy(old(script)) <= |old(script)| ==>
        flow.Go? && |script| == |old(script)| - DecidedBy(old(script)) && approvalSignal == Decision(old(script))
    {
      hide Base, Left, T, Stopped, Decision, DecidedBy, Heard, Told, PlanInState, Shows, Quiet, GatesOf;
      flow := AwaitSignal(Merge);
      OpeningKeeps(old(G()), G(), Merge);
    }

    /** The merge gate takes its signal; anything but an approval leaves the run underway, and an action
        allows one more verify. */
    method TakeMerge() returns (signal: Signal)
      requires Underway() && approvalSignal.Some? && G().open == Some(Merge)
      modifies this`approvalSignal, this`ran
      ensures Base() && T() == old(T()) && signal == old(approvalSignal).value
      ensures G().mergePassed <==> signal.kind.Approve?
      ensures G().fixes == old(G()).fixes + (if signal.kind.Fix? then 1 else 0)
      ensures G().actions == old(G()).actions + (if Stray(signal.kind) then 1 else 0)
      ensures Sound(T(), old(G()).fixes, G().replans, state)
      ensures Stray(signal.kind) ==> T().verifies <= T().fixers + G().actions
      ensures (G().canceling <==> signal.kind.Cancel?) && G().lastDesign == Some(Approve) && T().merges == 0
      ensures !signal.kind.Approve? && !signal.kind.Cancel? ==> Underway()
      ensures Undrained(old(G()), G()) && G().last == Some(AtGate(Merge, signal))
    {
      hide Dedup, HumanComments, TallyOf, GatesOf, GateSafe, WithinBudget, Total, Blocked, Passed,
           EvidenceNamed, ScriptNamed, GatesAfter;
      Known();
      MergeTakenGates(G(), approvalSignal.value);
      signal := Take(Merge);
    }

    /** The fixer turn a human asked for, charged unchecked. */
    method FixNow(ghost fixes: nat) returns (flow: Flow)
      requires !T().freshness.Unchecked?
      requires Underway() && !raised && InStep(Label.Fixing) && G().fixes == fixes + 1
      requires Sound(T(), fixes, G().replans, state)
      modifies this`approvalSignal, this`ran, this`newComments, this`script, this`raised, this`state
      ensures raised <==> flow == Stop(Raised)
      ensures flow in {Go, Stop(Raised), Stop(Suspended)} && Stopped(flow)
      ensures Underway() && Quiet(old(G()), G())
      ensures flow.Go? ==>
        |script| < |old(script)| && T().fixers == old(T()).fixers + 1 && T().verifies == old(T()).verifies
      ensures flow.Go? ==> exists reply :: state == MergeFixer(ChargeFixer(old(state)), reply)
      ensures Keeps(old(T()), T())
    {
      hide Base, Left, InStep, Stopped, Settled, Sound, GatesOf, TallyOf, ChargeFixer, MergeFixer, Total,
           Heard, Told, AnyBlocking;
      Charge(true);
      flow := FixerTurn(Label.Fixing);
    }

    /** A human fix, then verified whatever the verdict. */
    method HumanFix(ghost fixes: nat) returns (flow: Flow)
      requires Underway() && !raised && InStep(AwaitingMerge) && G().fixes == fixes + 1
      requires T().verifies <= T().fixers + G().actions
      requires Sound(T(), fixes, G().replans, state) && T().built && !T().freshness.Unchecked?
      modifies this`approvalSignal, this`ran, this`newComments, this`script, this`raised, this`labels, this`edits,
               this`currentLabel, this`state
      ensures raised <==> flow == Stop(Raised)
      ensures Stopped(flow) && flow in {Go, Stop(Raised), Stop(Suspended)} && G().actions == old(G()).actions
      ensures Undrained(old(G()), G())
      ensures flow.Go? ==> Underway() && InStep(Label.Fixing) && T().freshness == Verified(Passed(state))
      ensures flow.Go? ==> |script| < |old(script)| && Keeps(old(T()), T())
    {
      hide Base, Left, InStep, Settled, Sound, T, G, VerifyCycle, Passed, ChargeFixer, MergeFixer,
           EvidenceClean;
      flow := Relabel(AwaitingMerge, {AwaitingMerge}, Label.Fixing);
      if flow.Stop? {
        return;
      }
      :- FixNow(fixes);
      flow := VerifyStage(Label.Fixing);
    }

    /** A human rebuild, likewise. */
    method HumanRebuild() returns (flow: Flow)
      requires Underway() && !raised && InStep(AwaitingMerge) && G().actions > 0
      requires T().verifies <= T().fixers + G().actions
      modifies this`approvalSignal, this`ran, this`newComments, this`script, this`raised, this`labels, this`edits,
               this`currentLabel, this`state
      ensures raised <==> flow == Stop(Raised)
      ensures Stopped(flow) && flow in {Go, Stop(Raised), Stop(Suspended)} && G().actions == old(G()).actions
      ensures Undrained(old(G()), G())
      ensures flow.Go? ==> Underway() && InStep(Label.Building) && T().freshness == Verified(Passed(state))
      ensures flow.Go? ==> |script| < |old(script)| && Keeps(old(T()), T())
    {
      hide Base, Left, InStep, Settled, G, TallyOf, VerifyCycle, Passed, MergeBuild, EvidenceClean;
      flow := Relabel(AwaitingMerge, {AwaitingMerge}, Label.Building);
      if flow.Stop? {
        return;
      }
      :- BuildStage(Label.Building);
      flow := VerifyStage(Label.Building);
    }

    /** The merge gate's decision. A fix or a rebuild is done and comes back, an ignored kind just
        comes back. */
    method DecideMerge() returns (flow: Flow, again: bool)
      requires Underway() && !raised && InStep(AwaitingMerge) && approvalSignal.Some? && G().open == Some(Merge)
      requires T().freshness.Reviewed? && (G().actions == 0 ==> Passed(state)) && T().built
      modifies this`approvalSignal, this`ran, this`newComments, this`script, this`raised, this`labels, this`edits,
               this`currentLabel, this`state, this`markerPosted
      ensures raised <==> flow == Stop(Raised)
      ensures Undrained(old(G()), G())
      ensures Stopped(flow) && (again ==> flow.Go? && |script| <= |old(script)|)
      ensures again ==> Underway() && InStep(currentLabel) && ReviewStart(currentLabel) && !T().freshness.Unchecked?
      ensures again && G().actions == 0 ==> Passed(state)
      ensures again ==> Keeps(old(T()), T())
      ensures old(approvalSignal).value.kind.Approve? ==> flow.Go? && !again && script == old(script)
      ensures flow.Go? && !again ==>
        Merged() && T() == old(T()) && G().actions == old(G()).actions && state == old(state)
    {
      hide Base, Left, Settled, Sound, T, TallyOf, GatesOf, Passed;
      again := false;
      ghost var fixes := G().fixes;
      var signal := TakeMerge();
      match signal.kind {
        case Reject | Cancel =>
          flow := Close(AwaitingMerge, if signal.kind.Cancel? then Status.Canceled else Rejected, ReasonOf(signal));
        case Approve =>
          flow := Go;
        case Fix =>
          flow := HumanFix(fixes);
          again := flow.Go?;
        case Rebuild =>
          flow := HumanRebuild();
          again := flow.Go?;
        case Revise =>
          flow, again := Go, true;
      }
    }

    /** The merge was approved and is still to be done. */
    ghost predicate Merged()
      reads `approvalSignal, `newComments, `issueComments, `hydrated, `ran, `state, `script,
            `labels, `edits, `currentLabel, `raised
    {
      && Base() && T().merges == 0 && G().mergePassed && InStep(AwaitingMerge)
      && !G().canceling && G().lastDesign == Some(Approve)
    }

    /** A review, and the wait for what is decided about it. */
    method ReviewAndWait() returns (flow: Flow)
      requires Underway() && !raised && InStep(currentLabel) && ReviewStart(currentLabel)
      requires T().proposed && !T().freshness.Unchecked?
      modifies this`approvalSignal, this`ran, this`newComments, this`script, this`raised, this`labels, this`edits,
               this`currentLabel
      ensures raised <==> flow == Stop(Raised)
      ensures Stopped(flow) && flow in {Go, Stop(Raised), Stop(Suspended)} && Undrained(old(G()), G())
      ensures flow.Go? ==> Underway() && InStep(AwaitingMerge) && T().freshness.Reviewed? && Keeps(old(T()), T())
      ensures flow.Go? ==>
        Quiet(old(G()).(open := Some(Merge)), G()) && approvalSignal.Some? && |script| < |old(script)|
      ensures peaceful && |old(script)| >= 5 && DecidedBy(old(script)[5..]) + 5 <= |old(script)| ==>
        && flow.Go? && |script| == |old(script)| - 5 - DecidedBy(old(script)[5..])
        && approvalSignal == Decision(old(script)[5..])
    {
      hide Base, Left, Settled, T, GatesOf, Shows, Stopped, Decision, DecidedBy, Heard, Told, Quiet, Undrained;
      ghost var ahead := script;
      WhatIsLeft();
      flow := Review();
      QuietMeans(old(G()), G());
      if flow.Stop? {
        return;
      }
      ghost var gates := G();
      if peaceful && |ahead| >= 5 {
        Further(ahead, 5);
      }
      flow := OpenMerge();
      OpenThen(old(G()), gates, G(), Merge);
    }

    /** `_run_review_and_merge_gate`. */
    method ReviewAndMergeGate() returns (flow: Flow)
      requires Underway() && !raised && InStep(Verifying) && T().freshness == Verified(true) && Passed(state)
      requires T().built && T().proposed
      modifies this`approvalSignal, this`ran, this`newComments, this`script, this`raised, this`labels, this`edits,
               this`currentLabel, this`state, this`markerPosted
      ensures raised <==> flow == Stop(Raised)
      ensures Stopped(flow) && Undrained(old(G()), G())
      ensures flow.Go? ==> Merged() && T().freshness.Reviewed? && (G().actions == 0 ==> Passed(state))
      ensures (peaceful && |old(script)| >= 5 && DecidedBy(old(script)[5..]) + 5 <= |old(script)|
               && Approves(Decision(old(script)[5..]))) ==>
        flow.Go? && |script| == |old(script)| - 5 - DecidedBy(old(script)[5..])
    {
      hide Base, Left, Settled, T, GatesOf, Passed, Shows, Stopped, DecidedBy, Decision;
      while true
        invariant !raised && Undrained(old(G()), G())
        invariant Underway() && InStep(currentLabel) && ReviewStart(currentLabel) && !T().freshness.Unchecked?
        invariant (G().actions == 0 ==> Passed(state)) && T().built && T().proposed
        invariant (peaceful && |old(script)| >= 5 && DecidedBy(old(script)[5..]) + 5 <= |old(script)|
                   && Approves(Decision(old(script)[5..]))) ==> script == old(script)
        decreases |script|
      {
        :- ReviewAndWait();
        var again;
        flow, again := DecideMerge();
        if !again {
          return;
        }
      }
    }

    // ---------- The run ----------

    /** The merge itself. */
    method MergeStage() returns (flow: Flow)
      requires Base() && !raised && T().merges == 0 && G().mergePassed && T().freshness.Reviewed? && InStep(InProgress)
      requires !G().canceling
      modifies this`approvalSignal, this`ran, this`newComments, this`script, this`raised
      ensures raised <==> flow == Stop(Raised)
      ensures flow in {Go, Stop(Raised), Stop(Suspended)} && Stopped(flow)
      ensures Quiet(old(G()), G())
      ensures flow.Go? ==> Base() && T() == old(T()).(merges := 1)
      ensures peaceful && old(script) != [] ==> flow.Go? && script == Rest(old(script))
    {
      hide Base, Stopped, Left, TallyOf, GatesOf, Heard, Told;
      flow := Step(MergeBranch);
      StopsEarly(flow);
    }

    /** After the merge the done label goes on, then in-progress comes off. */
    method MarkDone() returns (flow: Flow)
      requires Base() && !raised && T().merges == 1 && InStep(InProgress) && !G().canceling && G().mergePassed
      requires T().freshness == Reviewed(Passed(state)) && (G().actions == 0 ==> Passed(state))
      modifies this`approvalSignal, this`ran, this`newComments, this`script, this`raised, this`labels, this`edits,
               this`currentLabel, this`markerPosted
      ensures raised <==> flow == Stop(Raised)
      ensures flow.Stop? && Stopped(flow)
      ensures Base() && T() == old(T()) && Quiet(old(G()), G())
      ensures peaceful && |old(script)| >= 3 ==>
        flow == Stop(Finished(Status.Merged, "")) && |script| == |old(script)| - 3
    {
      hide Base, Stopped, Left, TallyOf, GatesOf, Heard, Told, Passed, StateLabels;
      flow := Phase();
      if flow.Stop? {
        return;
      }
      flow := Replace(InProgress, Done);
      if flow.Stop? {
        StopsEarly(flow);
        return;
      }
      Finishes(Status.Merged, "");
      flow := Stop(Finished(Status.Merged, ""));
    }

    /** The label and the report that say a merge begins. */
    method BeginMerge() returns (flow: Flow)
      requires Merged() && !raised
      modifies this`approvalSignal, this`ran, this`newComments, this`script, this`raised, this`labels, this`edits,
               this`currentLabel
      ensures raised <==> flow == Stop(Raised)
      ensures Stopped(flow) && flow in {Go, Stop(Raised), Stop(Suspended)}
      ensures Base() && T() == old(T()) && Quiet(old(G()), G())
      ensures flow.Go? ==> InStep(InProgress)
      ensures peaceful && |old(script)| >= 2 ==> flow.Go? && |script| == |old(script)| - 2
    {
      hide Base, Stopped, Left, T, GatesOf, Heard, Told, Shows;
      flow := MoveLabel(AwaitingMerge, {AwaitingMerge}, InProgress);
      if flow.Stop? {
        return;
      }
      flow := Phase();
    }

    /** The merge, announced and done. */
    method DoMerge() returns (flow: Flow)
      requires Merged() && !raised && T().freshness.Reviewed?
      modifies this`approvalSignal, this`ran, this`newComments, this`script, this`raised, this`labels, this`edits,
               this`currentLabel
      ensures raised <==> flow == Stop(Raised)
      ensures Stopped(flow) && flow in {Go, Stop(Raised), Stop(Suspended)} && Undrained(old(G()), G())
      ensures flow.Go? ==> Base() && T() == old(T()).(merges := 1) && InStep(InProgress)
      ensures flow.Go? ==> G().mergePassed && !G().canceling && G().actions == old(G()).actions
      ensures peaceful && |old(script)| >= 3 ==> flow.Go? && |script| == |old(script)| - 3
    {
      hide Base, Stopped, Left, TallyOf, GatesOf, Heard, Told, Passed, InStep, Quiet, Undrained, Steady;
      flow := BeginMerge();
      ghost var gates := G();
      QuietMeans(old(G()), gates);
      if flow.Stop? {
        return;
      }
      flow := MergeStage();
      QuietMeans(gates, G());
      UndrainedThen(old(G()), gates, G());
    }

    /** From the approval of the merge to a done issue. */
    method Conclude() returns (flow: Flow)
      requires Merged() && T().freshness.Reviewed? && (G().actions == 0 ==> Passed(state))
      requires !raised
      modifies this`approvalSignal, this`ran, this`newComments, this`script, this`raised, this`labels, this`edits,
               this`currentLabel, this`markerPosted
      ensures raised <==> flow == Stop(Raised)
      ensures flow.Stop? && Stopped(flow) && Undrained(old(G()), G())
      ensures peaceful && |old(script)| >= 6 ==>
        flow == Stop(Finished(Status.Merged, "")) && |script| == |old(script)| - 6
    {
      hide Base, Stopped, Left, TallyOf, GatesOf, Heard, Told, Passed, InStep, Quiet, Undrained, Steady;
      VerdictByState();
      flow := DoMerge();
      if flow.Stop? {
        return;
      }
      ghost var gates := G();
      flow := MarkDone();
      UndrainedThen(old(G()), gates, G());
    }

    /** The comments that hydration found are the first ones stored. */
    method StoreFound(found: seq<Comment>)
      requires Latched() && G().talk.taken == [] && hydrated == [] && issueComments == []
      modifies this`issueComments, this`hydrated
      ensures Latched() && hydrated == found
    {
      hide GatesOf, GateSafe, Dedup;
      issueComments := MergeIssueComments(Some([]), Some(found));
      hydrated := found;
      assert [] + found == found && found + [] == found;
    }

    /** The first activity: the comments already on the issue are stored. */
    method HydrateStage() returns (flow: Flow)
      requires Base() && !raised && InStep(Ready) && !G().canceling
      requires G().talk.taken == [] && issueComments == [] && hydrated == []
      modifies this`approvalSignal, this`ran, this`newComments, this`script, this`raised, this`issueComments,
               this`hydrated
      ensures Stopped(flow)
      ensures flow == EndOf(old(script)) && script == Rest(old(script)) && (raised <==> flow == Stop(Raised))
      ensures peaceful && old(script) != [] ==> flow.Go?
      ensures approvalSignal == Heard(old(script), old(approvalSignal))
      ensures newComments == old(newComments) + Told(old(script))
      ensures Base() && T() == (if flow.Go? then old(T()).(hydrated := true) else old(T())) && Quiet(old(G()), G())
      ensures flow.Go? ==> hydrated == old(script)[0].comments && issueComments == Dedup(hydrated)
    {
      hide TallyOf, GatesOf, GateSafe, Dedup, EvidenceNamed, Blocked, Passed, SignalAfter, Told,
           WithinBudget, Total, Stopped, Left, RepliesNamed;
      var found := if script == [] then [] else script[0].comments;
      flow := Step(Hydrate);
      if flow.Go? {
        StoreFound(found);
        assert found + [] == found;
      }
      StopsEarly(flow);
    }

    /** Nothing has been decided yet. */
    ghost predicate Unstarted()
      reads `approvalSignal, `newComments, `issueComments, `hydrated, `ran, `state, `script,
            `latestSpecRev, `raised
    {
      && Unbuilt() && T().discoveries == 0 && TurnDue(0) && G().lastDesign.None?
      && !G().talk.accepted && G().talk.taken == [] && !G().hasPlan && G().refused == 0
    }

    /** The label and the report that say triage has begun. */
    method BeginTriage() returns (flow: Flow)
      requires Unstarted() && !raised && InStep(Ready) && T().hydrated
      modifies this`approvalSignal, this`ran, this`newComments, this`script, this`raised, this`labels, this`edits,
               this`currentLabel
      ensures raised <==> flow == Stop(Raised)
      ensures Stopped(flow)
      ensures flow.Go? ==> Unstarted() && InStep(Triaging) && T().hydrated
      ensures peaceful && |old(script)| >= 2 ==> flow.Go? && |script| == |old(script)| - 2
    {
      hide Base, T, GatesOf, Left, Shows, Heard, Told, Stopped, Quiet, Listened;
      flow := MoveLabel(Ready, {Ready}, Triaging);
      if flow.Stop? {
        return;
      }
      ghost var gates := G();
      QuietMeans(old(G()), gates);
      PlanningMeans(old(G()), gates);
      flow := Phase();
      QuietMeans(gates, G());
      PlanningMeans(gates, G());
    }

    /** Hydration, and the label that says triage has begun. */
    method Begin() returns (flow: Flow)
      requires Unstarted() && !raised && InStep(Ready) && issueComments == [] && hydrated == []
      modifies this`approvalSignal, this`ran, this`newComments, this`script, this`raised, this`issueComments,
               this`hydrated,
               this`labels, this`edits, this`currentLabel
      ensures raised <==> flow == Stop(Raised)
      ensures Stopped(flow)
      ensures flow.Go? ==> Unstarted() && InStep(Triaging) && T().hydrated
      ensures peaceful && |old(script)| >= 3 ==> flow.Go? && |script| == |old(script)| - 3
    {
      hide Base, T, GatesOf, Left, Shows, Heard, Told, Stopped, Quiet, Listened;
      flow := HydrateStage();
      if flow.Stop? {
        return;
      }
      QuietMeans(old(G()), G());
      PlanningMeans(old(G()), G());
      flow := BeginTriage();
    }

    /** Hydration and triage. */
    method Intake() returns (flow: Flow)
      requires Unstarted() && !raised && InStep(Ready) && issueComments == [] && hydrated == []
      modifies this
      ensures raised <==> flow == Stop(Raised)
      ensures Stopped(flow)
      ensures flow.Go? ==> Planning() && T().discoveries == 0 && G().lastDesign.None? && InStep(Designing)
      ensures flow.Go? ==> !G().hasPlan && G().refused == 0
      ensures peaceful && |old(script)| >= 6 && old(script)[3].ready ==> flow.Go? && |script| == |old(script)| - 6
      ensures state == old(state)
    {
      hide Base, T, GatesOf, Left, Shows, Stopped, Quiet, Listened, InStep, TurnDue;
      ghost var ahead := script;
      WhatIsLeft();
      flow := Begin();
      if flow.Stop? {
        return;
      }
      if peaceful && |ahead| >= 3 {
        Further(ahead, 3);
      }
      ghost var gates := G();
      flow := RunTriage();
      if flow.Stop? {
        return;
      }
      IntakeMeans(gates, G());
      gates := G();
      flow := MoveLabel(Triaging, {Triaging}, Designing);
      PlanningMeans(gates, G());
    }

    /** The pull request activity, on passing code. */
    method OpenPullRequest() returns (flow: Flow)
      requires Underway() && !raised && InStep(Verifying) && T().freshness == Verified(true)
      modifies this`approvalSignal, this`ran, this`newComments, this`script, this`raised
      ensures raised <==> flow == Stop(Raised)
      ensures Stopped(flow) && flow == EndOf(old(script)) && script == Rest(old(script))
      ensures peaceful && old(script) != [] ==> flow.Go?
      ensures Underway() && Quiet(old(G()), G())
      ensures T() == if flow.Go? then old(T()).(proposed := true) else old(T())
    {
      hide Base, Settled, Stopped, Left, TallyOf, GatesOf, Heard, Told;
      flow := Work(PrCreator);
    }

    /** A pull request between two reports. */
    method PullRequest() returns (flow: Flow)
      requires Underway() && !raised && InStep(Verifying) && T().freshness == Verified(true)
      modifies this`approvalSignal, this`ran, this`newComments, this`script, this`raised
      ensures raised <==> flow == Stop(Raised)
      ensures Stopped(flow) && flow in {Go, Stop(Raised), Stop(Suspended)}
      ensures Underway() && Quiet(old(G()), G())
      ensures flow.Go? ==> InStep(Verifying) && T() == old(T()).(proposed := true)
      ensures peaceful && |old(script)| >= 3 ==> flow.Go? && |script| == |old(script)| - 3
    {
      hide Base, Left, Settled, T, Shows, Heard, Told, Stopped, GatesOf, Quiet, Undrained;
      flow := Report(Verifying);
      if flow.Stop? {
        return;
      }
      ghost var gates := G();
      flow := OpenPullRequest();
      QuietThen(old(G()), gates, G());
      if flow.Stop? {
        return;
      }
      gates := G();
      flow := Report(Verifying);
      QuietThen(old(G()), gates, G());
    }

    /** From an approved design to passing code. */
    method Construct() returns (flow: Flow)
      requires Underway() && !raised && InStep(AwaitingApproval) && !G().built && G().fixes == 0
      requires T().verifies <= T().fixers && G().actions == 0
      modifies this`approvalSignal, this`ran, this`newComments, this`script, this`raised, this`labels, this`edits,
               this`currentLabel, this`state, this`markerPosted
      ensures raised <==> flow == Stop(Raised)
      ensures Stopped(flow) && Undrained(old(G()), G())
      ensures flow.Go? ==>
        Underway() && InStep(Verifying) && T().freshness == Verified(true) && Passed(state) && T().built
      ensures flow.Go? ==> G().actions == 0
      ensures peaceful && |old(script)| >= 8 && BuildsWell(old(state), old(script)[2].build, old(script)[6].evidence) ==>
        flow.Go? && |script| == |old(script)| - 8
    {
      hide Base, Left, Settled, Stopped, T, Shows, Heard, Told, Passed, GatesOf, BuildsWell;
      flow := Relabel(AwaitingApproval, {AwaitingApproval, ApprovedMark}, Label.Building);
      if flow.Stop? {
        return;
      }
      flow := BuildVerify();
    }

    /** From an approved design to a merge decision. */
    method Deliverable() returns (flow: Flow)
      requires Underway() && !raised && InStep(AwaitingApproval) && !G().built && G().fixes == 0
      requires T().verifies <= T().fixers
      requires G().actions == 0
      modifies this`approvalSignal, this`ran, this`newComments, this`script, this`raised, this`labels, this`edits,
               this`currentLabel, this`state, this`markerPosted
      ensures raised <==> flow == Stop(Raised)
      ensures Stopped(flow) && Undrained(old(G()), G())
      ensures flow.Go? ==> Merged() && T().freshness.Reviewed? && (G().actions == 0 ==> Passed(state))
      ensures (peaceful && |old(script)| >= 16 && BuildsWell(old(state), old(script)[2].build, old(script)[6].evidence)
               && DecidedBy(old(script)[16..]) + 16 <= |old(script)| && Approves(Decision(old(script)[16..]))) ==>
        flow.Go? && |script| == |old(script)| - 16 - DecidedBy(old(script)[16..])
    {
      hide Base, Left, Settled, Stopped, T, Shows, Merged, Passed, GatesOf, DecidedBy, Decision, BuildsWell;
      ghost var ahead := script;
      WhatIsLeft();
      flow := Construct();
      if flow.Stop? {
        return;
      }
      :- PullRequest();
      if peaceful && |script| == |ahead| - 11 {
        Further(ahead, 11);
      }
      flow := ReviewAndMergeGate();
    }

    /** From the issue to an approved design. */
    method ToDesign() returns (flow: Flow)
      requires Unstarted() && !raised && InStep(Ready) && issueComments == [] && hydrated == []
      requires state == INITIAL && |script| == |all| - 1
      modifies this
      ensures raised <==> flow == Stop(Raised)
      ensures Stopped(flow)
      ensures flow.Go? ==> Underway() && InStep(AwaitingApproval) && !G().built && G().fixes == 0 && T().verifies == 0
      ensures flow.Go? ==> G().actions == 0
      ensures peaceful && GoesWell(all) ==>
        flow.Go? && |script| == |all| - DesignBy(all) - 1 && state == WithPlan(INITIAL, all[8].plans)
    {
      hide Base, Left, Settled, Stopped, GatesOf, T, Shows, Decision, DecidedBy, WithPlan, BuildsWell;
      WhatIsLeft();
      flow := Intake();
      if flow.Stop? {
        return;
      }
      WhatIsLeft();
      flow := DesignGate();
    }

    /** Everything between setup and teardown. */
    method Body() returns (flow: Flow)
      requires Unstarted() && !raised && InStep(Ready) && issueComments == [] && hydrated == []
      requires state == INITIAL && |script| == |all| - 1
      modifies this
      ensures raised <==> flow == Stop(Raised)
      ensures flow.Stop? && Stopped(flow)
      ensures peaceful && GoesWell(all) ==> flow == Stop(Finished(Status.Merged, "")) && script != []
    {
      hide Base, Left, Settled, Stopped, T, Shows, Passed, GatesOf, DecidedBy, Decision, Merged, WithPlan,
           BuildsWell;
      flow := ToDesign();
      if flow.Stop? {
        return;
      }
      if peaceful && GoesWell(all) {
        WhatGoesWell();
      }
      :- Deliverable();
      flow := Conclude();
    }

    /** What is ahead of an approved design in a script that goes well. */
    lemma WhatGoesWell()
      requires Base() && GoesWell(all) && |script| == |all| - DesignBy(all) - 1
      ensures |script| >= 16 && DecidedBy(script[16..]) + 23 <= |script| && Approves(Decision(script[16..]))
      ensures BuildsWell(WithPlan(INITIAL, all[8].plans), script[2].build, script[6].evidence)
    {
      hide BuildsWell, Decision, DecidedBy;
      WhatIsLeft();
      assert script[16..] == all[DesignBy(all) + 17..];
    }

    /** What holds wherever the script ends. */
    ghost predicate Concluded(ending: Ending)
      reads `approvalSignal, `newComments, `issueComments, `hydrated, `ran, `state, `labels,
            `edits, `script, `markerPosted, `raised
    {
      && Latched() && Sound(T(), G().fixes, G().replans, state) && T().triages <= 1 + MAX_CLARIFICATION_ROUNDS
      && Explained(T(), G(), state) && Bounded()
      && (ending.Suspended? ==> script == [] && !T().tornDown)
      && (!ending.Suspended? ==> (T().tornDown <==> T().setUp))
      && (ending.Finished? ==> Canceled(ending) && Earned(ending) && !raised) && (ending.Raised? ==> raised)
      && (ending.Finished? ==> T().tornDown && T().merges == if ending.status.Merged? then 1 else 0)
      && (ending.Finished? && ending.status.Merged? ==>
            T().freshness == Reviewed(Passed(state)) && (G().actions == 0 ==> Passed(state)))
      && (ending.Finished? && (ending.status.Canceled? || ending.status.Rejected?) && canQuarantine ==> markerPosted)
      && (tidy ==> Left(ending))
    }

    /** The teardown follows whatever the body came to; its own failure fails the run. */
    method TearDown(result: Ending) returns (ending: Ending)
      requires !result.Suspended? && Stopped(Stop(result)) && (raised <==> result.Raised?)
      modifies this`approvalSignal, this`ran, this`newComments, this`script, this`raised
      ensures Concluded(ending)
      ensures peaceful && old(script) != [] ==> ending == result
    {
      hide TallyOf, GatesOf, GateSafe, Latched, Heard, Told, ActAfter, EvidenceNamed, RepliesNamed, Blocked,
           Passed, WithinBudget, Total, HandsOver, CanceledBy, RejectedBy, StateLabels, AllOrderly;
      var down := Activity(Teardown);
      if down != Stop(Suspended) {
        QuietActs(old(G()), Teardown, down.Go?, G());
      }
      ending := if down.Stop? then down.ending else result;
    }

    /** A run that has done nothing yet. */
    ghost predicate Fresh()
      reads `approvalSignal, `newComments, `issueComments, `hydrated, `ran, `state, `labels,
            `edits, `script, `currentLabel, `latestSpecRev, `raised
    {
      && ran == [] && state == INITIAL && Latched() && latestSpecRev == 1
      && hydrated == [] && issueComments == []
      && edits == [] && currentLabel == Ready && (tidy <==> StateLabels(labels) == {Ready})
      && (named <==> ScriptNamed(script, names) && UNKNOWN_FIXER_TARGET in names)
      && script == all && !raised && (peaceful <==> Peaceful(script))
    }

    /** The setup activity. */
    method SetUpStage() returns (flow: Flow)
      requires Fresh() && !raised && Bounded()
      modifies this`approvalSignal, this`ran, this`newComments, this`script, this`raised
      ensures flow == EndOf(old(script)) && script == Rest(old(script)) && (raised <==> flow == Stop(Raised))
      ensures peaceful && old(script) != [] ==> flow.Go?
      ensures approvalSignal == Heard(old(script), old(approvalSignal))
      ensures newComments == old(newComments) + Told(old(script))
      ensures flow.Go? ==> Unstarted() && InStep(Ready) && |script| == |all| - 1
      ensures flow.Stop? ==> Concluded(flow.ending)
    {
      hide RepliesNamed, EvidenceNamed, TallyOf, TallyAfter, GatesOf, GateSafe, ActAfter, Sound, Blocked,
           Passed, Heard, Told, Latched;
      BlankTrace();
      BlankIsSound(true);
      BlankIsSound(false);
      assert AllOrderly([]);
      flow := Activity(Setup);
      if flow != Stop(Suspended) {
        QuietActs(CLOSED, Setup, flow.Go?, G());
      }
    }

    /** Setup, and only when it succeeded the body and the teardown. */
    method SetUpAndRun() returns (ending: Ending)
      requires Fresh() && Bounded()
      modifies this
      ensures Concluded(ending)
      ensures peaceful && GoesWell(all) ==> ending == Finished(Status.Merged, "")
    {
      hide Latched, Sound, Bounded, Explained, TallyOf, GatesOf, Left, Heard;
      var flow := SetUpStage();
      if flow.Stop? {
        return flow.ending;
      }
      flow := Body();
      if flow.ending.Suspended? {
        return Suspended;
      }
      ending := TearDown(flow.ending);
    }

    /** A whole run, or the part of it the script covers. Whatever arrives when: the trace is safe, the
        gates decided in order, the budgets held, the trace says whether anything blocks a verdict, every
        await is an activity of the trace or a wait for what is not there yet, the issue showed one state
        at a time, and teardown ends what setup began. The comments stored and queued are the ones the
        trace says: `AcceptedMeans` and `AcceptedStoresIff` tell them apart. A run that finishes was ended
        by a cancel iff the trace says it found one, and `CancelingIff` when that is. Every ending has its
        reason, which the last clauses give, and a script that goes well ends merged. */
    method Run() returns (ending: Ending)
      requires Fresh()
      modifies this
      ensures Safe(ran) && GateSafe(ran)
      ensures WithinBudget(state, FIXER_MAX_ATTEMPTS + G().fixes) && FixerCalls(ran) <= Total(state.attemptsByWp)
      ensures named && G().fixes == 0 ==> FixerCalls(ran) <= 2 * |names|
      ensures Verifies(ran) <= FixerCalls(ran) + 1 + G().actions
      ensures state.verifyRetries == FailedVerifies(ran)
      ensures Triages(ran) <= 1 + MAX_CLARIFICATION_ROUNDS
      ensures Discoveries(ran) <= PLANNING_MAX_ATTEMPTS * (1 + G().replans)
      ensures G().blocked == Blocked(state)
      ensures newComments == G().talk.queue && issueComments == Dedup(hydrated + G().talk.taken)
      ensures ending.Finished? ==> (G().canceling <==> ending.status.Canceled? && G().lastDesign != Some(Reject))
      ensures ending.Suspended? ==> script == [] && !TornDown(ran)
      ensures !ending.Suspended? ==> (TornDown(ran) <==> SetUp(ran))
      ensures ending.Finished? ==> TornDown(ran) && Merges(ran) == if ending.status.Merged? then 1 else 0
      ensures ending.Finished? && ending.status.Merged? ==> RunTrace.Fresh(ran) == Reviewed(Passed(state))
      ensures ending.Finished? && ending.status.Merged? && G().actions == 0 ==> Passed(state)
      ensures ending.Finished? && (ending.status.Canceled? || ending.status.Rejected?) && canQuarantine ==> markerPosted
      ensures tidy ==> Left(ending)
      ensures |script| <= |all| && script == all[|all| - |script|..] && G().awaits == |all| - |script|
      ensures ending.Raised? ==> exists k :: 0 <= k < |all| - |script| && all[k].raised
      ensures ending.Finished? ==> forall k :: 0 <= k < |all| - |script| ==> !all[k].raised
      ensures ending.Finished? && ending.status.Rejected? ==> RejectedBy(G().last, ending.reason)
      ensures ending.Finished? && ending.status.Canceled? ==> CanceledBy(G().last, ending.reason)
      ensures ending.Finished? && ending.status.Abandoned? ==>
        && ending.reason == "max_clarification_rounds" && Triages(ran) == 4 && !G().talk.accepted
        && G().talk.unready == 4 && G().talk.rounds == 3
      ensures ending.Finished? && ending.status.NeedsHuman? ==>
        || (ending.reason == "planning_retry_cap" && G().refused == 5 && !G().hasPlan)
        || (G().designPassed && G().actions == 0 && HandsOver(RunTrace.Fresh(ran), state, ending.reason))
      ensures Peaceful(all) && GoesWell(all) ==> ending == Finished(Status.Merged, "")
    {
      hide Dedup, HumanComments, EvidenceNamed, ScriptNamed, Blocked, Passed, Safe, GatesOf, SetUp, TornDown,
           RunTrace.Fresh, FixerCalls, Triages, Discoveries, Merges, Verifies, FailedVerifies, WithinBudget,
           Total, Peaceful, GoesWell, HandsOver, CanceledBy, RejectedBy, Left;
      if named {
        StartNamed(names);
      }
      ending := SetUpAndRun();
      TallyMeans(ran);
      if named && G().fixes == 0 {
        RepairsAreBounded(ran, G().replans, state, names);
      }
    }
  }

  lemma StartNamed(names: set<string>)
    requires UNKNOWN_FIXER_TARGET in names
    ensures EvidenceNamed(INITIAL, names)
  {}
}
