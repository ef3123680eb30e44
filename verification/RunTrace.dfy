/** The activities a run executes, in order, and what a safe order is. Both run controllers record
    their activities in such a trace, with their own notes about gates in between. */
module RunTrace {

  /** Activities that matter to safety; everything else a run does is housekeeping. */
  datatype Act<+N> =
    | Setup | Hydrate | Triage | Discovery
    | Build | Verify(passed: bool) | Fixer
    | PrCreator | Reviewer | MergeBranch
    | Housekeeping | Teardown
    | Note(note: N)

  /** One executed activity, recorded when it starts; `ok` is false when it raised. */
  datatype Event<+N> = Event(act: Act<N>, ok: bool)

  predicate Changes<N>(e: Event<N>) {
    e.act.Build? || e.act.Fixer?
  }

  /** How far the code has been checked since a builder or fixer last touched it. */
  datatype Freshness = Unchecked | Verified(passed: bool) | Reviewed(passed: bool)

  function FreshAfter<N>(before: Freshness, e: Event<N>): Freshness {
    if Changes(e) then Unchecked
    else if !e.ok then before
    else match e.act
      case Verify(passed) => Verified(passed)
      case Reviewer => if before.Unchecked? then Unchecked else Reviewed(before.passed)
      case _ => before
  }

  function Fresh<N>(t: seq<Event<N>>): Freshness {
    if t == [] then Unchecked else FreshAfter(Fresh(t[..|t| - 1]), t[|t| - 1])
  }

  predicate TornDown<N>(t: seq<Event<N>>) {
    t != [] && (t[|t| - 1].act.Teardown? || TornDown(t[..|t| - 1]))
  }

  /** The worker was set up. */
  predicate SetUp<N>(t: seq<Event<N>>) {
    t != [] && ((t[|t| - 1].act.Setup? && t[|t| - 1].ok) || SetUp(t[..|t| - 1]))
  }

  /** Some hydration, build, or pull request ended well. */
  predicate HasHydrated<N>(t: seq<Event<N>>) {
    t != [] && ((t[|t| - 1].act.Hydrate? && t[|t| - 1].ok) || HasHydrated(t[..|t| - 1]))
  }

  predicate HasBuilt<N>(t: seq<Event<N>>) {
    t != [] && ((t[|t| - 1].act.Build? && t[|t| - 1].ok) || HasBuilt(t[..|t| - 1]))
  }

  predicate HasOpened<N>(t: seq<Event<N>>) {
    t != [] && ((t[|t| - 1].act.PrCreator? && t[|t| - 1].ok) || HasOpened(t[..|t| - 1]))
  }

  function FixerCalls<N>(t: seq<Event<N>>): nat {
    if t == [] then 0 else FixerCalls(t[..|t| - 1]) + if t[|t| - 1].act.Fixer? then 1 else 0
  }

  function Discoveries<N>(t: seq<Event<N>>): nat {
    if t == [] then 0 else Discoveries(t[..|t| - 1]) + if t[|t| - 1].act.Discovery? then 1 else 0
  }

  function Triages<N>(t: seq<Event<N>>): nat {
    if t == [] then 0 else Triages(t[..|t| - 1]) + if t[|t| - 1].act.Triage? then 1 else 0
  }

  function Merges<N>(t: seq<Event<N>>): nat {
    if t == [] then 0 else Merges(t[..|t| - 1]) + if t[|t| - 1].act.MergeBranch? then 1 else 0
  }

  /** Verify cycles started. */
  function Verifies<N>(t: seq<Event<N>>): nat {
    if t == [] then 0 else Verifies(t[..|t| - 1]) + if t[|t| - 1].act.Verify? then 1 else 0
  }

  predicate FailedVerify<N>(e: Event<N>) {
    e.ok && e.act.Verify? && !e.act.passed
  }

  /** Verify cycles that ended with a failing verdict. */
  function FailedVerifies<N>(t: seq<Event<N>>): nat {
    if t == [] then 0 else FailedVerifies(t[..|t| - 1]) + if FailedVerify(t[|t| - 1]) then 1 else 0
  }

  /** How far a run has come. */
  datatype Progress = Progress(setUp: bool, hydrated: bool, built: bool, proposed: bool, tornDown: bool,
                               freshness: Freshness)

  function ProgressBy<N>(t: seq<Event<N>>): Progress {
    Progress(SetUp(t), HasHydrated(t), HasBuilt(t), HasOpened(t), TornDown(t), Fresh(t))
  }

  /** May the activity come next? Everything needs the setup, triage and planning the hydration, a verify
      a build, a fixer a verdict on the current code, a pull request a passing one, a review a pull
      request; a merge needs the current code verified and then reviewed; no activity follows the
      teardown. */
  predicate Allowed<N>(done: Progress, act: Act<N>) {
    || act.Note?
    || (&& !done.tornDown && (act.Setup? || done.setUp)
        && (act.Triage? || act.Discovery? ==> done.hydrated)
        && (act.Verify? ==> done.built)
        && (act.Fixer? ==> !done.freshness.Unchecked?)
        && (act.PrCreator? ==> done.freshness == Verified(true))
        && (act.Reviewer? ==> done.proposed && !done.freshness.Unchecked?)
        && (act.MergeBranch? ==> done.freshness.Reviewed?))
  }

  predicate Safe<N>(t: seq<Event<N>>) {
    t == [] ||
    var init := t[..|t| - 1];
    Safe(init) && Allowed(ProgressBy(init), t[|t| - 1].act)
  }

  /** Everything the run invariants say about a trace. */
  datatype Tally = Tally(safe: bool, setUp: bool, hydrated: bool, built: bool, proposed: bool, tornDown: bool,
                         freshness: Freshness, fixers: nat, triages: nat, discoveries: nat, merges: nat,
                         verifies: nat, failed: nat)
  {
    function Stage(): Progress { Progress(setUp, hydrated, built, proposed, tornDown, freshness) }
  }

  const START := Tally(true, false, false, false, false, false, Unchecked, 0, 0, 0, 0, 0, 0)

  function TallyAfter<N>(tally: Tally, e: Event<N>): Tally {
    Tally(tally.safe && Allowed(tally.Stage(), e.act),
          tally.setUp || (e.act.Setup? && e.ok),
          tally.hydrated || (e.act.Hydrate? && e.ok),
          tally.built || (e.act.Build? && e.ok),
          tally.proposed || (e.act.PrCreator? && e.ok),
          tally.tornDown || e.act.Teardown?,
          FreshAfter(tally.freshness, e),
          tally.fixers + if e.act.Fixer? then 1 else 0,
          tally.triages + if e.act.Triage? then 1 else 0,
          tally.discoveries + if e.act.Discovery? then 1 else 0,
          tally.merges + if e.act.MergeBranch? then 1 else 0,
          tally.verifies + if e.act.Verify? then 1 else 0,
          tally.failed + if FailedVerify(e) then 1 else 0)
  }

  /** A running tally. */
  function TallyOf<N>(t: seq<Event<N>>): Tally {
    if t == [] then START else TallyAfter(TallyOf(t[..|t| - 1]), t[|t| - 1])
  }

  lemma TallyOne<N>(t: seq<Event<N>>, e: Event<N>)
    ensures TallyOf(t + [e]) == TallyAfter(TallyOf(t), e)
  {
    assert (t + [e])[..|t + [e]| - 1] == t;
  }

  /** The running tally says of the trace what each definition says of it as a whole. */
  lemma {:induction false} TallyMeans<N>(t: seq<Event<N>>)
    ensures TallyOf(t) == Tally(Safe(t), SetUp(t), HasHydrated(t), HasBuilt(t), HasOpened(t), TornDown(t), Fresh(t),
                                FixerCalls(t), Triages(t), Discoveries(t), Merges(t), Verifies(t), FailedVerifies(t))
  {
    hide Allowed, FreshAfter;
    if t != [] {
      TallyMeans(t[..|t| - 1]);
    }
  }

  // ---------- What safety means for a whole trace ----------

  /** No builder or fixer ran in t[a..b]. */
  ghost predicate Untouched<N>(t: seq<Event<N>>, a: nat, b: nat)
    requires b <= |t|
  {
    forall i :: a <= i < b ==> !Changes(t[i])
  }

  /** A verify with this verdict is the latest word on the code at position b. */
  ghost predicate VerifiedBy<N>(t: seq<Event<N>>, v: nat, b: nat, passed: bool)
    requires b <= |t|
  {
    v < b && t[v] == Event(Verify(passed), true) && Untouched(t, v, b)
  }

  lemma VerifiedExtends<N>(t: seq<Event<N>>, e: Event<N>, v: nat, passed: bool)
    requires VerifiedBy(t, v, |t|, passed) && !Changes(e)
    ensures VerifiedBy(t + [e], v, |t + [e]|, passed)
  {}

  lemma {:induction false} CheckedMeans<N>(t: seq<Event<N>>)
    requires !Fresh(t).Unchecked?
    ensures exists v: nat :: VerifiedBy(t, v, |t|, Fresh(t).passed)
  {
    hide VerifiedBy;
    var init, e := t[..|t| - 1], t[|t| - 1];
    assert t == init + [e];
    if e.ok && e.act.Verify? {
      JustVerified(init, e);
    } else {
      CheckedMeans(init);
      var v: nat :| VerifiedBy(init, v, |init|, Fresh(init).passed);
      VerifiedExtends(init, e, v, Fresh(init).passed);
    }
  }

  lemma JustVerified<N>(t: seq<Event<N>>, e: Event<N>)
    requires e.ok && e.act.Verify?
    ensures VerifiedBy(t + [e], |t|, |t + [e]|, e.act.passed)
  {}

  lemma {:induction false} FreshMeans<N>(t: seq<Event<N>>)
    requires Fresh(t).Reviewed?
    ensures exists v: nat, r: nat ::
      VerifiedBy(t, v, |t|, Fresh(t).passed) && v < r < |t| && t[r] == Event(Reviewer, true)
  {
    var init, e := t[..|t| - 1], t[|t| - 1];
    assert t == init + [e];
    if e.ok && e.act.Reviewer? {
      CheckedMeans(init);
      var v: nat :| VerifiedBy(init, v, |init|, Fresh(init).passed);
      VerifiedExtends(init, e, v, Fresh(init).passed);
      assert VerifiedBy(t, v, |t|, Fresh(t).passed) && v < |init| < |t| && t[|init|] == Event(Reviewer, true);
    } else {
      FreshMeans(init);
      var v: nat, r: nat :|
        VerifiedBy(init, v, |init|, Fresh(init).passed) && v < r < |init| && init[r] == Event(Reviewer, true);
      VerifiedExtends(init, e, v, Fresh(init).passed);
      assert VerifiedBy(t, v, |t|, Fresh(t).passed) && v < r < |t| && t[r] == Event(Reviewer, true);
    }
  }

  lemma {:induction false} SafePrefix<N>(t: seq<Event<N>>, i: nat)
    requires Safe(t) && i < |t|
    ensures Safe(t[..i]) && Allowed(ProgressBy(t[..i]), t[i].act)
    decreases |t|
  {
    if i < |t| - 1 {
      SafePrefix(t[..|t| - 1], i);
      assert t[..|t| - 1][..i] == t[..i];
    }
  }

  lemma {:induction false} TornDownMeans<N>(t: seq<Event<N>>)
    ensures TornDown(t) <==> exists i :: 0 <= i < |t| && t[i].act.Teardown?
  {
    if t != [] {
      TornDownMeans(t[..|t| - 1]);
      assert t[..|t| - 1] <= t;
      if i :| 0 <= i < |t| && t[i].act.Teardown? {
        assert i == |t| - 1 || t[..|t| - 1][i].act.Teardown?;
      }
    }
  }

  /** In a safe trace every merge comes after a verify and then a review of exactly the code that is
      merged. */
  lemma MergeIsVerifiedAndReviewed<N>(t: seq<Event<N>>, i: nat)
    requires Safe(t) && i < |t| && t[i].act.MergeBranch?
    ensures exists v: nat, r: nat, passed ::
      VerifiedBy(t, v, i, passed) && v < r < i && t[r] == Event(Reviewer, true)
  {
    SafePrefix(t, i);
    FreshMeans(t[..i]);
    var passed := Fresh(t[..i]).passed;
    var v: nat, r: nat :| VerifiedBy(t[..i], v, i, passed) && v < r < i && t[..i][r] == Event(Reviewer, true);
    assert VerifiedBy(t, v, i, passed) && v < r < i && t[r] == Event(Reviewer, true);
  }

  /** Some earlier activity of the kind ended well. */
  lemma {:induction false} DoneMeans<N>(t: seq<Event<N>>)
    ensures SetUp(t) ==> exists k :: 0 <= k < |t| && t[k] == Event(Setup, true)
    ensures HasHydrated(t) ==> exists k :: 0 <= k < |t| && t[k] == Event(Hydrate, true)
    ensures HasBuilt(t) ==> exists k :: 0 <= k < |t| && t[k] == Event(Build, true)
    ensures HasOpened(t) ==> exists k :: 0 <= k < |t| && t[k] == Event(PrCreator, true)
  {
    if t != [] {
      var init, e := t[..|t| - 1], t[|t| - 1];
      DoneMeans(init);
      assert forall k :: 0 <= k < |init| ==> init[k] == t[k];
      assert t[|t| - 1] == e;
    }
  }

  lemma BuildBefore<N>(t: seq<Event<N>>, v: nat)
    requires Safe(t) && v < |t| && t[v].act.Verify?
    ensures exists b :: 0 <= b < v && t[b] == Event(Build, true)
  {
    SafePrefix(t, v);
    DoneMeans(t[..v]);
    var b :| 0 <= b < v && t[..v][b] == Event(Build, true);
    assert t[b] == Event(Build, true);
  }

  lemma ProposalBefore<N>(t: seq<Event<N>>, r: nat)
    requires Safe(t) && r < |t| && t[r].act.Reviewer?
    ensures exists p :: 0 <= p < r && t[p] == Event(PrCreator, true)
  {
    SafePrefix(t, r);
    DoneMeans(t[..r]);
    var p :| 0 <= p < r && t[..r][p] == Event(PrCreator, true);
    assert t[p] == Event(PrCreator, true);
  }

  /** No stage of a run is skipped: before a merge a build and then a verify ended well, and a pull
      request and then a review. */
  lemma MergeHasHistory<N>(t: seq<Event<N>>, i: nat)
    requires Safe(t) && i < |t| && t[i].act.MergeBranch?
    ensures exists v: nat, r: nat, passed ::
      && VerifiedBy(t, v, i, passed) && v < r < i && t[r] == Event(Reviewer, true)
      && (exists b :: 0 <= b < v && t[b] == Event(Build, true))
      && (exists p :: 0 <= p < r && t[p] == Event(PrCreator, true))
  {
    hide Safe, VerifiedBy;
    MergeIsVerifiedAndReviewed(t, i);
    var v: nat, r: nat, passed :| VerifiedBy(t, v, i, passed) && v < r < i && t[r] == Event(Reviewer, true);
    VerifiedIsVerify(t, v, i, passed);
    BuildBefore(t, v);
    ProposalBefore(t, r);
  }

  lemma VerifiedIsVerify<N>(t: seq<Event<N>>, v: nat, b: nat, passed: bool)
    requires b <= |t| && VerifiedBy(t, v, b, passed)
    ensures v < |t| && t[v].act.Verify?
  {}

  /** Every pull request is opened on code whose latest verdict passed. */
  lemma PrIsOnPassingCode<N>(t: seq<Event<N>>, i: nat)
    requires Safe(t) && i < |t| && t[i].act.PrCreator?
    ensures exists v: nat :: VerifiedBy(t, v, i, true)
  {
    SafePrefix(t, i);
    CheckedMeans(t[..i]);
    var v: nat :| VerifiedBy(t[..i], v, i, true);
    assert VerifiedBy(t, v, i, true);
  }

  /** Only the last activity can be the teardown, so it runs at most once. */
  lemma TeardownIsLast<N>(t: seq<Event<N>>, i: nat, later: nat)
    requires Safe(t) && i < later < |t| && !t[later].act.Note?
    ensures !t[i].act.Teardown?
  {
    SafePrefix(t, later);
    TornDownMeans(t[..later]);
    assert t[..later][i] == t[i];
  }
}
