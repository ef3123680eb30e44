/** One tick of the issue poller: its start budget, its counters, and the quarantine of closed runs. */
module PollTick {
  import opened IssueComments
  import opened IssueLabels
  import opened DispatchProtocol

  // ---------- One tick ----------

  /** Why a call was ignored: the run is closed, nothing new was said, or the run is gone. */
  datatype Why = ClosedRun | NoNewComments | NotFound

  datatype Action = Started | Updated | Ignored(why: Why) | Throttled

  /** What syncing with a run can find. */
  datatype Synced = Forwarded | NothingNew | AlreadyClosed | Gone

  function SyncAction(synced: Synced): Action {
    match synced
    case Forwarded => Updated
    case NothingNew => Ignored(NoNewComments)
    case AlreadyClosed => Ignored(ClosedRun)
    case Gone => Ignored(NotFound)
  }

  /** One issue's call: what it sees, whether a start is rejected as a duplicate, what a sync would
      find, and whether a human's decision would be found on the issue. */
  datatype Call = Call(prefix: string, view: View, rejected: bool, synced: Synced, signal: bool)

  /** `start_or_update_issue_workflow_activity`'s answer when it may start or may not. */
  function AnswerTo(call: Call, allowStart: bool): Action {
    match Decide(call.view.(allowStart := allowStart), call.prefix)
    case Start(_) => if call.rejected then SyncAction(call.synced) else Started
    case Throttle(_) => Throttled
    case Ignore(_) => Ignored(ClosedRun)
    case SyncRun(_) | SyncLegacy => SyncAction(call.synced)
  }

  /** Without budget nothing is started. */
  lemma NoBudgetNoStart(call: Call)
    ensures !AnswerTo(call, false).Started?
  {
    assert !Decide(call.view.(allowStart := false), call.prefix).Start?;
  }

  datatype Counts = Counts(started: nat, updated: nat, ignored: nat, throttled: nat, quarantined: nat, signaled: nat)

  function CountOne(c: Counts, action: Action): Counts {
    match action
    case Started => c.(started := c.started + 1)
    case Updated => c.(updated := c.updated + 1)
    case Ignored(_) => c.(ignored := c.ignored + 1)
    case Throttled => c.(throttled := c.throttled + 1)
  }

  /** A closed run is quarantined in the same tick. */
  predicate NeedsQuarantine(action: Action) {
    action.Ignored? && action.why.ClosedRun?
  }

  /** `_can_detect_approval`. */
  predicate CanDetectApproval(action: Action) {
    action.Updated? || (action.Ignored? && action.why.NoNewComments?)
  }

  function Sum(c: Counts): nat {
    c.started + c.updated + c.ignored + c.throttled
  }

  /** The calls a tick gets when it starts with this budget. */
  function Replies(calls: seq<Call>, available: nat): seq<Action> {
    if calls == [] then []
    else
      var before := Replies(calls[..|calls| - 1], available);
      before + [AnswerTo(calls[|calls| - 1], Starts(before) < available)]
  }

  function Starts(actions: seq<Action>): nat {
    if actions == [] then 0
    else Starts(actions[..|actions| - 1]) + if actions[|actions| - 1].Started? then 1 else 0
  }

  lemma {:induction false} StartsWithinBudget(calls: seq<Call>, available: nat)
    ensures |Replies(calls, available)| == |calls| && Starts(Replies(calls, available)) <= available
  {
    if calls != [] {
      hide AnswerTo;
      var init, last := calls[..|calls| - 1], calls[|calls| - 1];
      StartsWithinBudget(init, available);
      NoBudgetNoStart(last);
      var before, all := Replies(init, available), Replies(calls, available);
      assert all[..|all| - 1] == before;
    }
  }

  /** How many runs the issue workflows run while a tick goes on. Runs may end before each call. */
  function RunningAfter(running: nat, ends: seq<nat>, actions: seq<Action>): nat
    requires |ends| == |actions|
  {
    if actions == [] then running
    else
      var n := |actions| - 1;
      var before := RunningAfter(running, ends[..n], actions[..n]);
      (if ends[n] < before then before - ends[n] else 0) + if actions[n].Started? then 1 else 0
  }

  lemma {:induction false} RunningBound(running: nat, ends: seq<nat>, actions: seq<Action>)
    requires |ends| == |actions|
    ensures RunningAfter(running, ends, actions) <= running + Starts(actions)
  {
    if actions != [] {
      var n := |actions| - 1;
      RunningBound(running, ends[..n], actions[..n]);
    }
  }

  lemma NoReplies(available: nat)
    ensures Replies([], available) == [] && Starts([]) == 0 && CountsOf([], []) == Counts(0, 0, 0, 0, 0, 0)
  {}

  lemma ReplyOne(calls: seq<Call>, available: nat, n: nat)
    requires n < |calls|
    ensures var before := Replies(calls[..n], available);
      var action := AnswerTo(calls[n], Starts(before) < available);
      && Replies(calls[..n + 1], available) == before + [action]
      && Starts(before + [action]) == Starts(before) + (if action.Started? then 1 else 0)
  {
    assert calls[..n + 1][..n] == calls[..n];
    var before := Replies(calls[..n], available);
    var action := AnswerTo(calls[n], Starts(before) < available);
    assert (before + [action])[..|before|] == before;
  }

  /** One issue's effect on all counters. */
  function Counted(c: Counts, action: Action, signal: bool): Counts {
    var acted := CountOne(c, action);
    acted.(quarantined := acted.quarantined + (if NeedsQuarantine(action) then 1 else 0),
           signaled := acted.signaled + (if CanDetectApproval(action) && signal then 1 else 0))
  }

  function CountsOf(actions: seq<Action>, calls: seq<Call>): Counts
    requires |actions| == |calls|
  {
    if actions == [] then Counts(0, 0, 0, 0, 0, 0)
    else
      var n := |actions| - 1;
      Counted(CountsOf(actions[..n], calls[..n]), actions[n], calls[n].signal)
  }

  lemma CountOneMore(actions: seq<Action>, calls: seq<Call>, action: Action, call: Call)
    requires |actions| == |calls|
    ensures CountsOf(actions + [action], calls + [call]) == Counted(CountsOf(actions, calls), action, call.signal)
  {
    assert (actions + [action])[..|actions|] == actions && (calls + [call])[..|calls|] == calls;
  }

  /** The loop of `IssuePollWorkflow.run`. */
  method Tick(calls: seq<Call>, available: nat) returns (counts: Counts, actions: seq<Action>)
    ensures actions == Replies(calls, available) && |actions| == |calls|
    ensures counts == CountsOf(actions, calls)
  {
    hide Replies, Starts, CountsOf, AnswerTo;
    counts, actions := Counts(0, 0, 0, 0, 0, 0), [];
    NoReplies(available);
    var startsRemaining := available;
    for n := 0 to |calls|
      invariant actions == Replies(calls[..n], available) && |actions| == n
      invariant counts == CountsOf(actions, calls[..n])
      invariant startsRemaining == if Starts(actions) < available then available - Starts(actions) else 0
    {
      ReplyOne(calls, available, n);
      assert calls[..n + 1] == calls[..n] + [calls[n]];
      var action := AnswerTo(calls[n], startsRemaining > 0);
      CountOneMore(actions, calls[..n], action, calls[n]);
      actions := actions + [action];
      counts := Counted(counts, action, calls[n].signal);
      if action == Started {
        startsRemaining := if startsRemaining > 0 then startsRemaining - 1 else 0;
      }
    }
    assert calls[..|calls|] == calls;
  }

  lemma NothingCounted()
    ensures Sum(Counts(0, 0, 0, 0, 0, 0)) == 0
  {}

  lemma CountedAdds(c: Counts, action: Action, signal: bool)
    ensures var after := Counted(c, action, signal);
      && Sum(after) == Sum(c) + 1 && after.started == c.started + (if action.Started? then 1 else 0)
      && (c.quarantined + c.signaled <= c.updated + c.ignored ==>
            after.quarantined + after.signaled <= after.updated + after.ignored)
  {
    match action
    case Started =>
    case Updated =>
    case Ignored(_) =>
    case Throttled =>
  }

  /** The counters add up: every issue is counted once, starts are within budget, and no issue is both
      quarantined and followed up for a decision. */
  lemma {:induction false} CountsAddUp(actions: seq<Action>, calls: seq<Call>)
    requires |actions| == |calls|
    ensures var c := CountsOf(actions, calls);
      && Sum(c) == |calls| && c.started == Starts(actions)
      && c.quarantined + c.signaled <= c.updated + c.ignored
  {
    hide Counted, Sum;
    if actions == [] {
      NothingCounted();
    } else {
      var n := |actions| - 1;
      CountsAddUp(actions[..n], calls[..n]);
      CountedAdds(CountsOf(actions[..n], calls[..n]), actions[n], calls[n].signal);
    }
  }

  /** What one tick reports: at most the budget started, every issue accounted for. */
  lemma TickAccounts(calls: seq<Call>, available: nat)
    ensures |Replies(calls, available)| == |calls|
    ensures var c := CountsOf(Replies(calls, available), calls);
      && c.started <= available && c.started + c.updated + c.ignored + c.throttled == |calls|
  {
    StartsWithinBudget(calls, available);
    CountsAddUp(Replies(calls, available), calls);
  }

  /** `issue_workflow_capacity_activity`. */
  function Available(maxConcurrent: nat, active: nat): nat {
    if active < maxConcurrent then maxConcurrent - active else 0
  }

  /** What happens in one tick and until the next: ends before the count is read, then an answer and
      the ends before it for every issue. */
  datatype Round = Round(endsBefore: nat, calls: seq<Call>, ends: seq<nat>)

  ghost predicate WellFormed(rounds: seq<Round>) {
    forall r :: r in rounds ==> |r.ends| == |r.calls|
  }

  function AfterRound(running: nat, maxConcurrent: nat, round: Round): nat
    requires |round.ends| == |round.calls|
  {
    var active := if round.endsBefore < running then running - round.endsBefore else 0;
    StartsWithinBudget(round.calls, Available(maxConcurrent, active));
    RunningAfter(active, round.ends, Replies(round.calls, Available(maxConcurrent, active)))
  }

  function AfterRounds(running: nat, maxConcurrent: nat, rounds: seq<Round>): nat
    requires WellFormed(rounds)
  {
    if rounds == [] then running
    else AfterRound(AfterRounds(running, maxConcurrent, rounds[..|rounds| - 1]), maxConcurrent, rounds[|rounds| - 1])
  }

  /** With one poller and an accurate count, the limit on concurrent runs is never exceeded once it
      holds. */
  lemma {:induction false} NeverOverLimit(running: nat, maxConcurrent: nat, rounds: seq<Round>)
    requires WellFormed(rounds) && running <= maxConcurrent
    ensures AfterRounds(running, maxConcurrent, rounds) <= maxConcurrent
  {
    hide Replies, Starts, RunningAfter;
    if rounds != [] {
      var init, round := rounds[..|rounds| - 1], rounds[|rounds| - 1];
      NeverOverLimit(running, maxConcurrent, init);
      var before := AfterRounds(running, maxConcurrent, init);
      var active := if round.endsBefore < before then before - round.endsBefore else 0;
      var available := Available(maxConcurrent, active);
      StartsWithinBudget(round.calls, available);
      RunningBound(active, round.ends, Replies(round.calls, available));
    }
  }

  // ---------- Several pollers ----------

  /** The runs running, and the starts each poller has left of the capacity it read. */
  datatype Fleet = Fleet(running: nat, budgets: seq<nat>)

  /** A poller reads the capacity, or makes a call for an issue; a run ends. */
  datatype FleetStep = ReadCapacity(p: nat) | Ask(p: nat, call: Call) | RunEnds

  function FleetAfter(fleet: Fleet, maxConcurrent: nat, step: FleetStep): Fleet {
    match step
    case ReadCapacity(p) =>
      if p < |fleet.budgets| then fleet.(budgets := fleet.budgets[p := Available(maxConcurrent, fleet.running)]) else fleet
    case Ask(p, call) =>
      if p < |fleet.budgets| && AnswerTo(call, fleet.budgets[p] > 0).Started? then
        NoBudgetNoStart(call);
        Fleet(fleet.running + 1, fleet.budgets[p := fleet.budgets[p] - 1])
      else fleet
    case RunEnds => fleet.(running := if fleet.running > 0 then fleet.running - 1 else 0)
  }

  function FleetAfterAll(fleet: Fleet, maxConcurrent: nat, steps: seq<FleetStep>): Fleet {
    if steps == [] then fleet
    else FleetAfter(FleetAfterAll(fleet, maxConcurrent, steps[..|steps| - 1]), maxConcurrent, steps[|steps| - 1])
  }

  function Unspent(budgets: seq<nat>): nat {
    if budgets == [] then 0 else Unspent(budgets[..|budgets| - 1]) + budgets[|budgets| - 1]
  }

  /** No poller has more left than the limit; what runs and what may still be started stay within one
      limit per poller. */
  ghost predicate FleetInv(fleet: Fleet, maxConcurrent: nat) {
    && (forall p :: 0 <= p < |fleet.budgets| ==> fleet.budgets[p] <= maxConcurrent)
    && fleet.running + Unspent(fleet.budgets) <= |fleet.budgets| * maxConcurrent
  }

  lemma {:induction false} UnspentUpdate(budgets: seq<nat>, p: nat, b: nat)
    requires p < |budgets|
    ensures Unspent(budgets[p := b]) == Unspent(budgets) - budgets[p] + b
  {
    var n := |budgets| - 1;
    if p == n {
      assert budgets[p := b][..n] == budgets[..n];
    } else {
      assert budgets[p := b][..n] == budgets[..n][p := b];
      UnspentUpdate(budgets[..n], p, b);
    }
  }

  /** The others have at most one limit each left. */
  lemma {:induction false} OthersBound(budgets: seq<nat>, maxConcurrent: nat, p: nat)
    requires p < |budgets| && forall q :: 0 <= q < |budgets| ==> budgets[q] <= maxConcurrent
    ensures Unspent(budgets) - budgets[p] <= (|budgets| - 1) * maxConcurrent
  {
    var n := |budgets| - 1;
    if p == n {
      AllBound(budgets[..n], maxConcurrent);
    } else {
      OthersBound(budgets[..n], maxConcurrent, p);
    }
  }

  lemma {:induction false} AllBound(budgets: seq<nat>, maxConcurrent: nat)
    requires forall q :: 0 <= q < |budgets| ==> budgets[q] <= maxConcurrent
    ensures Unspent(budgets) <= |budgets| * maxConcurrent
  {
    if budgets != [] {
      AllBound(budgets[..|budgets| - 1], maxConcurrent);
    }
  }

  lemma FleetStepKeeps(fleet: Fleet, maxConcurrent: nat, step: FleetStep)
    requires FleetInv(fleet, maxConcurrent)
    ensures FleetInv(FleetAfter(fleet, maxConcurrent, step), maxConcurrent)
  {
    hide Unspent, AnswerTo;
    match step
    case ReadCapacity(p) =>
      if p < |fleet.budgets| {
        UnspentUpdate(fleet.budgets, p, Available(maxConcurrent, fleet.running));
        OthersBound(fleet.budgets, maxConcurrent, p);
      }
    case Ask(p, call) =>
      NoBudgetNoStart(call);
      if p < |fleet.budgets| && fleet.budgets[p] > 0 {
        UnspentUpdate(fleet.budgets, p, fleet.budgets[p] - 1);
      }
    case RunEnds =>
  }

  /** However the steps of k pollers and the ends of runs interleave, at most k times the limit run. */
  lemma {:induction false} PollersNeverOver(fleet: Fleet, maxConcurrent: nat, steps: seq<FleetStep>)
    requires FleetInv(fleet, maxConcurrent)
    ensures FleetInv(FleetAfterAll(fleet, maxConcurrent, steps), maxConcurrent)
    ensures FleetAfterAll(fleet, maxConcurrent, steps).running <= |fleet.budgets| * maxConcurrent
  {
    hide FleetInv;
    if steps != [] {
      var init, step := steps[..|steps| - 1], steps[|steps| - 1];
      PollersNeverOver(fleet, maxConcurrent, init);
      FleetStepKeeps(FleetAfterAll(fleet, maxConcurrent, init), maxConcurrent, step);
    }
    FleetMeans(fleet, maxConcurrent, steps);
  }

  lemma {:induction false} FleetMeans(fleet: Fleet, maxConcurrent: nat, steps: seq<FleetStep>)
    ensures |FleetAfterAll(fleet, maxConcurrent, steps).budgets| == |fleet.budgets|
    ensures FleetInv(FleetAfterAll(fleet, maxConcurrent, steps), maxConcurrent) ==>
      FleetAfterAll(fleet, maxConcurrent, steps).running <= |fleet.budgets| * maxConcurrent
  {
    if steps != [] {
      FleetMeans(fleet, maxConcurrent, steps[..|steps| - 1]);
    }
  }

  /** The limit itself does not hold of two pollers: both read the capacity before either starts. */
  lemma TwoPollersOverLimit(call: Call)
    requires AnswerTo(call, true).Started?
    ensures FleetAfterAll(Fleet(0, [0, 0]), 1, [ReadCapacity(0), ReadCapacity(1), Ask(0, call), Ask(1, call)]).running == 2
  {
    var none: seq<FleetStep> := [];
    var steps := [ReadCapacity(0), ReadCapacity(1), Ask(0, call), Ask(1, call)];
    assert steps[..3][..2] == steps[..2] && steps[..2][..1] == steps[..1] && steps[..1][..0] == none;
    assert FleetAfterAll(Fleet(0, [0, 0]), 1, none) == Fleet(0, [0, 0]);
    assert FleetAfterAll(Fleet(0, [0, 0]), 1, steps[..1]) == Fleet(0, [1, 0]);
    assert FleetAfterAll(Fleet(0, [0, 0]), 1, steps[..2]) == Fleet(0, [1, 1]);
    assert FleetAfterAll(Fleet(0, [0, 0]), 1, steps[..3]) == Fleet(1, [0, 1]);
  }

  // ---------- Quarantine ----------

  datatype Issue = Issue(labels: set<Label>, comments: seq<Comment>)

  /** Where one attempt of the quarantine activity got to before it failed; `Full` did everything, and
      an attempt that failed after its comment went through also counts as that. */
  datatype Attempt = BeforeEdit | AfterEdit | Full

  /** The issue after one attempt. */
  function Attempted(issue: Issue, id: string, closure: Closure, attempt: Attempt): Issue {
    if attempt.BeforeEdit? then issue
    else
      var edited := issue.(labels := Quarantined(issue.labels, closure));
      if attempt.Full? && !MarkerIn(issue.comments, id) then edited.(comments := issue.comments + [MarkerComment(id)])
      else edited
  }

  /** A full run of `quarantine_closed_issue_activity`. */
  method QuarantineClosedIssue(issue: Issue, id: string, closure: Closure) returns (after: Issue)
    ensures after == Attempted(issue, id, closure, Full)
  {
    var alreadyPosted := MarkerIn(issue.comments, id);
    var labels := QuarantineLabels(issue.labels, closure);
    after := Issue(labels, issue.comments);
    if !alreadyPosted {
      after := after.(comments := issue.comments + [MarkerComment(id)]);
    }
  }

  function AttemptedAll(issue: Issue, id: string, closure: Closure, attempts: seq<Attempt>): Issue {
    if attempts == [] then issue
    else Attempted(AttemptedAll(issue, id, closure, attempts[..|attempts| - 1]), id, closure, attempts[|attempts| - 1])
  }

  predicate Marks(c: Comment, id: string) {
    Contains(c.body.GetOr(""), Marker(id))
  }

  function MarkerCount(comments: seq<Comment>, id: string): nat {
    if comments == [] then 0
    else MarkerCount(comments[..|comments| - 1], id) + if Marks(comments[|comments| - 1], id) then 1 else 0
  }

  lemma MarkerCloses(id: string)
    requires '>' !in id
    ensures |Marker(id)| > 19 && ClosesAt(Marker(id), 19)
  {
    var body, q := Marker(id), |HEAD| + |id| + 1;
    assert StartsWith(body, q, "-->");
    forall j | 19 <= j < q ensures body[j] != '>' {
      assert j < |HEAD| + |id| ==> body[j] == id[j - |HEAD|] && body[j] in id;
    }
    assert ClosedBy(body, 19, q);
    ClosesMeans(body, 19);
  }

  lemma MarkerOpens(id: string)
    ensures var body := Marker(id);
      |body| > 19 && StartsWith(body, 0, "<!--") && SkipSpaces(body, 4) == 5 && StartsWith(body, 5, "df-quarantine:")
  {
    var body := Marker(id);
    assert body[4] == ' ' && body[5] == 'd';
    assert SkipSpaces(body, 5) == 5;
    assert SkipSpaces(body, 4) == SkipSpaces(body, 5);
  }

  /** What the quarantine posts is bookkeeping to every later run: no human comment. */
  lemma MarkerIsBookkeeping(id: string)
    requires '>' !in id
    ensures IsMarker(MarkerComment(id))
  {
    hide ClosesAt, Marker, SkipSpaces, StartsWith;
    MarkerCloses(id);
    MarkerOpens(id);
    var body := MarkerComment(id).body.GetOr("");
    assert MarkerAt(body, 0);
  }

  lemma MarkerCommentMarks(id: string)
    ensures Marks(MarkerComment(id), id)
  {
    assert StartsWith(Marker(id), 0, Marker(id));
  }

  lemma {:induction false} CountedIfThere(comments: seq<Comment>, id: string)
    requires id != ""
    ensures MarkerCount(comments, id) == 0 <==> !MarkerIn(comments, id)
  {
    if comments != [] {
      var init, last := comments[..|comments| - 1], comments[|comments| - 1];
      CountedIfThere(init, id);
      assert comments == init + [last];
      assert Marks(last, id) <==> Contains(last.body.GetOr(""), Marker(id));
    }
  }

  lemma OneMore(comments: seq<Comment>, id: string)
    ensures MarkerCount(comments + [MarkerComment(id)], id) == MarkerCount(comments, id) + 1
  {
    var more := comments + [MarkerComment(id)];
    assert more[..|more| - 1] == comments;
    MarkerCommentMarks(id);
  }

  /** Once the labels and the marker are there an attempt changes nothing. */
  lemma FullIsFinal(issue: Issue, id: string, closure: Closure, attempt: Attempt)
    requires id != ""
    ensures var full := Attempted(issue, id, closure, Full);
      MarkerIn(full.comments, id) && Attempted(full, id, closure, attempt) == full
  {
    var full := Attempted(issue, id, closure, Full);
    QuarantineTidies(issue.labels, closure);
    MarkerCommentMarks(id);
    assert !MarkerIn(issue.comments, id) ==> MarkerComment(id) in full.comments;
  }

  /** Whatever partial attempts come first, a full one leaves what one full attempt alone leaves. */
  lemma {:induction false} RetriesConverge(issue: Issue, id: string, closure: Closure, attempts: seq<Attempt>)
    requires id != ""
    ensures Attempted(AttemptedAll(issue, id, closure, attempts), id, closure, Full) == Attempted(issue, id, closure, Full)
  {
    if attempts != [] {
      var init, last := attempts[..|attempts| - 1], attempts[|attempts| - 1];
      RetriesConverge(issue, id, closure, init);
      var before := AttemptedAll(issue, id, closure, init);
      QuarantineTidies(before.labels, closure);
      FullIsFinal(before, id, closure, Full);
    }
  }

  /** Any attempts that end with a full one leave the status label and exactly one marker comment
      where there was none. */
  lemma QuarantineIsIdempotent(issue: Issue, id: string, closure: Closure, attempts: seq<Attempt>)
    requires id != "" && MarkerCount(issue.comments, id) == 0
    ensures var end := AttemptedAll(issue, id, closure, attempts + [Full]);
      && end.labels == Quarantined(issue.labels, closure)
      && MarkerCount(end.comments, id) == 1 && issue.comments <= end.comments
  {
    assert (attempts + [Full])[..|attempts|] == attempts;
    RetriesConverge(issue, id, closure, attempts);
    CountedIfThere(issue.comments, id);
    OneMore(issue.comments, id);
  }
}
