/** Which work packages a failed verification charges, and the budget that bounds the repairs. */
module RepairBudget {
  import opened Common
  import opened StateReducers
  import opened IssueComments
  import opened PipelineState

  const FIXER_MAX_ATTEMPTS: nat := 2
  const UNKNOWN_FIXER_TARGET := "__unknown__"

  // ---------- Targets ----------

  /** The non-empty texts of a list, stripped. */
  function Stripped(values: seq<string>): seq<string> {
    if values == [] then []
    else
      var rest := Stripped(values[..|values| - 1]);
      var text := Strip(values[|values| - 1]);
      if text != "" then rest + [text] else rest
  }

  /** What a loop of `_append_unique` collects: stripped, non-empty, first occurrence kept. */
  function Collected(values: seq<string>): seq<string> {
    FirstSeen(Stripped(values))
  }

  lemma NothingCollected()
    ensures Collected([]) == []
  {}

  lemma CollectedOne(values: seq<string>, value: string)
    ensures Collected(values + [value]) ==
      if Strip(value) == "" || Strip(value) in Collected(values) then Collected(values)
      else Collected(values) + [Strip(value)]
  {
    assert (values + [value])[..|values + [value]| - 1] == values;
    var s := Stripped(values) + [Strip(value)];
    assert s[..|s| - 1] == Stripped(values);
  }

  lemma {:induction false} StrippedNonEmpty(values: seq<string>)
    ensures forall t :: t in Stripped(values) ==> t != ""
  {
    if values != [] {
      StrippedNonEmpty(values[..|values| - 1]);
    }
  }

  lemma CollectedFacts(values: seq<string>)
    ensures Distinct(Collected(values)) && "" !in Collected(values)
  {
    FirstSeenFacts(Stripped(values));
    StrippedNonEmpty(values);
  }

  /** Coverage items the verifier did not call covered. */
  function Uncovered(coverage: seq<Coverage>): seq<Coverage> {
    if coverage == [] then []
    else
      var rest := Uncovered(coverage[..|coverage| - 1]);
      if coverage[|coverage| - 1].status != COVERED then rest + [coverage[|coverage| - 1]] else rest
  }

  function WpIds(items: seq<Coverage>): seq<string> {
    if items == [] then [] else WpIds(items[..|items| - 1]) + [items[|items| - 1].wpId]
  }

  function Predicates(items: seq<Coverage>): seq<string> {
    if items == [] then [] else Predicates(items[..|items| - 1]) + [items[|items| - 1].text]
  }

  function TesterWps(findings: seq<TesterFinding>): seq<string> {
    if findings == [] then [] else TesterWps(findings[..|findings| - 1]) + [findings[|findings| - 1].wpId]
  }

  function BlockingWps(findings: seq<ReconFinding>): seq<string> {
    if findings == [] then []
    else
      var rest := BlockingWps(findings[..|findings| - 1]);
      var last := findings[|findings| - 1];
      if BlockingKind(last.kind) then rest + [last.wpId] else rest
  }

  function SemanticFailures(state: State): seq<Coverage> {
    match state.summary
    case None => []
    case Some(summary) => Uncovered(summary.coverage)
  }

  /** Every work package id the failure evidence names, in the order the evidence is read. */
  function NamedByEvidence(state: State): seq<string> {
    WpIds(SemanticFailures(state)) + TesterWps(state.testerFindings) + BlockingWps(state.reconFindings)
  }

  /** First named package of the brief, then of the spec, else the unknown target. */
  function FirstBriefWpId(state: State): string {
    FirstItemId(state.briefItems + state.spec)
  }

  function FirstItemId(items: seq<WorkItem>): string {
    if items == [] then UNKNOWN_FIXER_TARGET
    else if ItemId(items[0]) != "" then ItemId(items[0])
    else FirstItemId(items[1..])
  }

  /** The work packages a failure charges: those the evidence names, else the active slice, else
      the first package, else the unknown target. */
  function ChargedWps(state: State): seq<string> {
    var named := Collected(NamedByEvidence(state));
    if named != [] then named
    else if Strip(state.currentSlice) != "" then [Strip(state.currentSlice)]
    else if Strip(FirstBriefWpId(state)) != "" then [Strip(FirstBriefWpId(state))]
    else [UNKNOWN_FIXER_TARGET]
  }

  function ChargedPredicates(state: State): seq<string> {
    Collected(Predicates(SemanticFailures(state)))
  }

  /** `_append_unique`. */
  method AppendUnique(values: seq<string>, value: string, ghost history: seq<string>) returns (updated: seq<string>)
    requires values == Collected(history)
    ensures updated == Collected(history + [value])
  {
    CollectedOne(history, value);
    var text := Strip(value);
    updated := if text != "" && text !in values then values + [text] else values;
  }

  /** The first loop of `_fixer_failure_targets`: uncovered predicates. */
  method CollectSemantic(coverage: seq<Coverage>) returns (wps: seq<string>, predicates: seq<string>)
    ensures wps == Collected(WpIds(Uncovered(coverage)))
    ensures predicates == Collected(Predicates(Uncovered(coverage)))
  {
    wps, predicates := [], [];
    for n := 0 to |coverage|
      invariant wps == Collected(WpIds(Uncovered(coverage[..n])))
      invariant predicates == Collected(Predicates(Uncovered(coverage[..n])))
    {
      UncoveredOne(coverage, n);
      if coverage[n].status != COVERED {
        wps := AppendUnique(wps, coverage[n].wpId, WpIds(Uncovered(coverage[..n])));
        predicates := AppendUnique(predicates, coverage[n].text, Predicates(Uncovered(coverage[..n])));
      }
    }
    assert coverage[..|coverage|] == coverage;
  }

  lemma UncoveredOne(coverage: seq<Coverage>, n: nat)
    requires n < |coverage|
    ensures var before, after := Uncovered(coverage[..n]), Uncovered(coverage[..n + 1]);
      if coverage[n].status == COVERED then after == before
      else && WpIds(after) == WpIds(before) + [coverage[n].wpId]
           && Predicates(after) == Predicates(before) + [coverage[n].text]
  {
    var before := Uncovered(coverage[..n]);
    assert coverage[..n + 1][..n] == coverage[..n];
    assert (before + [coverage[n]])[..|before|] == before;
  }

  /** The second loop: tester findings. */
  method CollectTester(wps: seq<string>, findings: seq<TesterFinding>, ghost history: seq<string>)
    returns (out: seq<string>)
    requires wps == Collected(history)
    ensures out == Collected(history + TesterWps(findings))
  {
    out := wps;
    assert history + [] == history;
    for n := 0 to |findings|
      invariant out == Collected(history + TesterWps(findings[..n]))
    {
      assert findings[..n + 1][..n] == findings[..n];
      assert history + TesterWps(findings[..n + 1]) == history + TesterWps(findings[..n]) + [findings[n].wpId];
      out := AppendUnique(out, findings[n].wpId, history + TesterWps(findings[..n]));
    }
    assert findings[..|findings|] == findings;
  }

  /** The third loop: blocking reconciliation findings. */
  method CollectBlocking(wps: seq<string>, findings: seq<ReconFinding>, ghost history: seq<string>)
    returns (out: seq<string>)
    requires wps == Collected(history)
    ensures out == Collected(history + BlockingWps(findings))
  {
    out := wps;
    assert history + [] == history;
    for n := 0 to |findings|
      invariant out == Collected(history + BlockingWps(findings[..n]))
    {
      assert findings[..n + 1][..n] == findings[..n];
      if BlockingKind(findings[n].kind) {
        assert history + BlockingWps(findings[..n + 1]) == history + BlockingWps(findings[..n]) + [findings[n].wpId];
        out := AppendUnique(out, findings[n].wpId, history + BlockingWps(findings[..n]));
      }
    }
    assert findings[..|findings|] == findings;
  }

  /** `_fixer_failure_targets`. */
  method FixerFailureTargets(state: State) returns (wps: seq<string>, predicates: seq<string>)
    ensures wps == ChargedWps(state) && predicates == ChargedPredicates(state)
  {
    wps, predicates := CollectSemantic(if state.summary.Some? then state.summary.value.coverage else []);
    ghost var semantic := WpIds(SemanticFailures(state));
    wps := CollectTester(wps, state.testerFindings, semantic);
    wps := CollectBlocking(wps, state.reconFindings, semantic + TesterWps(state.testerFindings));
    assert Collected([]) == [];
    if wps == [] {
      wps := AppendUnique(wps, state.currentSlice, []);
      CollectedOne([], state.currentSlice);
    }
    if wps == [] {
      wps := AppendUnique(wps, FirstBriefWpId(state), []);
      CollectedOne([], FirstBriefWpId(state));
    }
    if wps == [] {
      wps := [UNKNOWN_FIXER_TARGET];
    }
  }

  lemma {:induction false} StrippedMeans(values: seq<string>, id: string)
    ensures id in Stripped(values) <==> id != "" && exists v | v in values :: Strip(v) == id
  {
    if values != [] {
      var init, last := values[..|values| - 1], values[|values| - 1];
      StrippedMeans(init, id);
      assert values == init + [last];
    }
  }

  lemma {:induction false} UncoveredMeans(coverage: seq<Coverage>)
    ensures forall item :: item in Uncovered(coverage) <==> item in coverage && item.status != COVERED
  {
    if coverage != [] {
      UncoveredMeans(coverage[..|coverage| - 1]);
      assert coverage == coverage[..|coverage| - 1] + [coverage[|coverage| - 1]];
    }
  }

  lemma {:induction false} WpIdsMean(items: seq<Coverage>, id: string)
    ensures id in WpIds(items) <==> exists item | item in items :: item.wpId == id
    ensures id in Predicates(items) <==> exists item | item in items :: item.text == id
  {
    if items != [] {
      WpIdsMean(items[..|items| - 1], id);
      assert items == items[..|items| - 1] + [items[|items| - 1]];
    }
  }

  lemma {:induction false} TesterWpsMean(findings: seq<TesterFinding>, id: string)
    ensures id in TesterWps(findings) <==> exists f | f in findings :: f.wpId == id
  {
    if findings != [] {
      TesterWpsMean(findings[..|findings| - 1], id);
      assert findings == findings[..|findings| - 1] + [findings[|findings| - 1]];
    }
  }

  lemma {:induction false} BlockingWpsMean(findings: seq<ReconFinding>, id: string)
    ensures id in BlockingWps(findings) <==> exists f | f in findings :: BlockingKind(f.kind) && f.wpId == id
  {
    if findings != [] {
      BlockingWpsMean(findings[..|findings| - 1], id);
      assert findings == findings[..|findings| - 1] + [findings[|findings| - 1]];
    }
  }

  /** Some piece of the failure evidence carries this raw id. */
  ghost predicate Carried(state: State, raw: string) {
    || (state.summary.Some?
        && exists item | item in state.summary.value.coverage :: item.status != COVERED && item.wpId == raw)
    || (exists f | f in state.testerFindings :: f.wpId == raw)
    || (exists f | f in state.reconFindings :: BlockingKind(f.kind) && f.wpId == raw)
  }

  /** Charged on evidence are exactly the ids that, but for space around them, an uncovered coverage
      item, a tester finding or a blocking reconciliation finding carries. The fallbacks come only when
      there is none. */
  lemma ChargedIff(state: State, id: string)
    ensures id in Collected(NamedByEvidence(state)) <==> id != "" && exists raw :: Strip(raw) == id && Carried(state, raw)
    ensures Collected(NamedByEvidence(state)) != [] ==> ChargedWps(state) == Collected(NamedByEvidence(state))
    ensures Collected(NamedByEvidence(state)) == [] <==> forall raw :: Carried(state, raw) ==> Strip(raw) == ""
  {
    hide Strip, Carried, NamedByEvidence, Stripped;
    var values := NamedByEvidence(state);
    FirstSeenFacts(Stripped(values));
    StrippedMeans(values, id);
    forall raw ensures raw in values <==> Carried(state, raw) {
      CarriedIff(state, raw);
    }
    if Collected(values) != [] {
      var some := Collected(values)[0];
      StrippedMeans(values, some);
    }
    forall raw | Carried(state, raw) && Strip(raw) != "" ensures Collected(values) != [] {
      StrippedMeans(values, Strip(raw));
    }
  }

  lemma CarriedIff(state: State, raw: string)
    ensures raw in NamedByEvidence(state) <==> Carried(state, raw)
  {
    UncoveredMeans(if state.summary.Some? then state.summary.value.coverage else []);
    WpIdsMean(SemanticFailures(state), raw);
    TesterWpsMean(state.testerFindings, raw);
    BlockingWpsMean(state.reconFindings, raw);
  }

  /** A predicate is charged iff an uncovered coverage item carries its text. */
  lemma ChargedPredicateIff(state: State, text: string)
    ensures text in ChargedPredicates(state) <==>
      text != "" && state.summary.Some?
      && exists item | item in state.summary.value.coverage :: item.status != COVERED && Strip(item.text) == text
  {
    hide Strip;
    var items := SemanticFailures(state);
    UncoveredMeans(if state.summary.Some? then state.summary.value.coverage else []);
    FirstSeenFacts(Stripped(Predicates(items)));
    StrippedMeans(Predicates(items), text);
    forall raw ensures raw in Predicates(items) <==> exists item | item in items :: item.text == raw {
      WpIdsMean(items, raw);
    }
    if item :| item in items && Strip(item.text) == text {
      assert item.text in Predicates(items);
    }
  }

  /** The charged list is never empty, names nothing twice, and never the empty id. */
  lemma ChargedWpsFacts(state: State)
    ensures ChargedWps(state) != [] && Distinct(ChargedWps(state)) && "" !in ChargedWps(state)
    ensures Distinct(ChargedPredicates(state))
  {
    CollectedFacts(NamedByEvidence(state));
    CollectedFacts(Predicates(SemanticFailures(state)));
  }

  /** The work packages the Fixer itself aims at: the evidence, then always the active slice. */
  function FixerTargets(state: State): seq<string> {
    Collected(NamedByEvidence(state) + [state.currentSlice])
  }

  /** `_target_wp_ids`: the same reading with a set of ids already seen. */
  method TargetWpIds(state: State) returns (out: seq<string>)
    ensures out == FixerTargets(state)
  {
    hide Collected, Strip, NamedByEvidence;
    var values := NamedByEvidence(state) + [state.currentSlice];
    var seen: set<string> := {};
    out := [];
    NothingCollected();
    for n := 0 to |values|
      invariant out == Collected(values[..n])
      invariant forall t :: t in seen <==> t in out
    {
      CollectedOne(values[..n], values[n]);
      assert values[..n + 1] == values[..n] + [values[n]];
      var text := Strip(values[n]);
      if text != "" && text !in seen {
        seen := seen + {text};
        out := out + [text];
      }
    }
    assert values[..|values|] == values;
  }

  /** Fixer and budget agree: when the Fixer has a target, its first one is the first one charged. */
  lemma FixerAimsAtFirstCharged(state: State)
    ensures FixerTargets(state) != [] ==> FixerTargets(state)[0] == ChargedWps(state)[0]
    ensures FixerTargets(state) == [] <==> Collected(NamedByEvidence(state)) == [] && Strip(state.currentSlice) == ""
  {
    CollectedOne(NamedByEvidence(state), state.currentSlice);
  }

  // ---------- Charging ----------

  function Spent(attempts: map<string, nat>, key: string): nat {
    if key in attempts then attempts[key] else 0
  }

  /** One more attempt for every target. */
  function Charged(attempts: map<string, nat>, targets: seq<string>): map<string, nat> {
    map key | key in attempts.Keys + (set t | t in targets) ::
      Spent(attempts, key) + if key in targets then 1 else 0
  }

  lemma ChargedOne(attempts: map<string, nat>, targets: seq<string>, t: string)
    requires t !in targets
    ensures Charged(attempts, targets + [t]) == Charged(attempts, targets)[t := Spent(Charged(attempts, targets), t) + 1]
  {
    forall key ensures key in targets + [t] <==> key in targets || key == t {}
  }

  /** The counting loop of `_record_fixer_attempt_delta`. */
  method ChargeAll(attempts: map<string, nat>, targets: seq<string>) returns (updated: map<string, nat>)
    requires Distinct(targets)
    ensures updated == Charged(attempts, targets)
  {
    updated := attempts;
    assert Charged(attempts, []) == attempts;
    for n := 0 to |targets|
      invariant updated == Charged(attempts, targets[..n])
    {
      ChargedOne(attempts, targets[..n], targets[n]);
      assert targets[..n + 1] == targets[..n] + [targets[n]];
      updated := updated[targets[n] := Spent(updated, targets[n]) + 1];
    }
    assert targets[..|targets|] == targets;
  }

  /** The state after `_record_fixer_attempt_delta`. */
  function ChargeFixer(state: State): State {
    state.(attemptsByWp := Charged(state.attemptsByWp, ChargedWps(state)),
           attemptsByPredicate := Charged(state.attemptsByPredicate, ChargedPredicates(state)))
  }

  /** `_record_fixer_attempt_delta`, merged. */
  method RecordFixerAttempt(state: State) returns (charged: State)
    ensures charged == ChargeFixer(state)
  {
    var wps, predicates := FixerFailureTargets(state);
    ChargedWpsFacts(state);
    var byWp := ChargeAll(state.attemptsByWp, wps);
    var byPredicate := ChargeAll(state.attemptsByPredicate, predicates);
    charged := state.(attemptsByWp := byWp, attemptsByPredicate := byPredicate);
  }

  /** `_fixer_budget_exhaustion` escalates: some target has used its budget up. */
  predicate Exhausted(state: State) {
    || (exists wp | wp in ChargedWps(state) :: Spent(state.attemptsByWp, wp) >= FIXER_MAX_ATTEMPTS)
    || (exists p | p in ChargedPredicates(state) :: Spent(state.attemptsByPredicate, p) >= FIXER_MAX_ATTEMPTS)
  }

  ghost predicate WithinBudget(state: State, limit: nat) {
    && (forall wp :: wp in state.attemptsByWp ==> state.attemptsByWp[wp] <= limit)
    && (forall p :: p in state.attemptsByPredicate ==> state.attemptsByPredicate[p] <= limit)
  }

  /** A charge that the exhaustion check let through keeps every counter within the budget. */
  lemma CheckedChargeKeepsBudget(state: State)
    requires WithinBudget(state, FIXER_MAX_ATTEMPTS) && !Exhausted(state)
    ensures WithinBudget(ChargeFixer(state), FIXER_MAX_ATTEMPTS)
  {}

  /** A human fix charges without asking: every counter grows by at most one. */
  lemma UncheckedChargeAddsOne(state: State, limit: nat)
    requires WithinBudget(state, limit)
    ensures WithinBudget(ChargeFixer(state), limit + 1)
  {}

  // ---------- The bound on repair calls ----------

  /** All attempts ever charged to work packages. */
  ghost function Total(attempts: map<string, nat>): nat
    decreases |attempts|
  {
    if attempts == map[] then 0
    else var key :| key in attempts; attempts[key] + Total(attempts - {key})
  }

  lemma {:induction false} TotalWithout(attempts: map<string, nat>, key: string)
    requires key in attempts
    ensures Total(attempts) == attempts[key] + Total(attempts - {key})
    decreases |attempts|
  {
    var first :| first in attempts && Total(attempts) == attempts[first] + Total(attempts - {first});
    if first != key {
      TotalWithout(attempts - {first}, key);
      TotalWithout(attempts - {key}, first);
      assert attempts - {first} - {key} == attempts - {key} - {first};
    }
  }

  lemma TotalChargeOne(attempts: map<string, nat>, key: string)
    ensures Total(attempts[key := Spent(attempts, key) + 1]) == Total(attempts) + 1
  {
    var updated := attempts[key := Spent(attempts, key) + 1];
    TotalWithout(updated, key);
    if key in attempts {
      TotalWithout(attempts, key);
      assert updated - {key} == attempts - {key};
    } else {
      assert updated - {key} == attempts;
    }
  }

  lemma {:induction false} TotalCharge(attempts: map<string, nat>, targets: seq<string>)
    requires Distinct(targets)
    ensures Total(Charged(attempts, targets)) == Total(attempts) + |targets|
  {
    if targets == [] {
      assert Charged(attempts, targets) == attempts;
    } else {
      var init, last := targets[..|targets| - 1], targets[|targets| - 1];
      assert targets == init + [last];
      assert last !in init;
      TotalCharge(attempts, init);
      ChargedOne(attempts, init, last);
      TotalChargeOne(Charged(attempts, init), last);
    }
  }

  lemma {:induction false} TotalBound(attempts: map<string, nat>)
    requires forall key :: key in attempts ==> attempts[key] <= FIXER_MAX_ATTEMPTS
    ensures Total(attempts) <= 2 * |attempts|
    decreases |attempts|
  {
    if attempts != map[] {
      var key :| key in attempts && Total(attempts) == attempts[key] + Total(attempts - {key});
      var rest := attempts - {key};
      assert |rest| == |attempts| - 1;
      TotalBound(rest);
    }
  }

  /** Each Fixer call charges at least one package. */
  lemma ChargeFixerSpends(state: State)
    ensures Total(ChargeFixer(state).attemptsByWp) >= Total(state.attemptsByWp) + 1
  {
    ChargedWpsFacts(state);
    TotalCharge(state.attemptsByWp, ChargedWps(state));
  }

  /** While every counter is within budget, the calls made number at most twice the packages ever
      charged; and when only packages of a finite set can be named, at most twice that set, so the
      repair loop ends. */
  lemma RepairCallsBounded(state: State, calls: nat, nameable: set<string>)
    requires WithinBudget(state, FIXER_MAX_ATTEMPTS) && calls <= Total(state.attemptsByWp)
    ensures calls <= 2 * |state.attemptsByWp|
    ensures state.attemptsByWp.Keys <= nameable ==> calls <= 2 * |nameable|
  {
    TotalBound(state.attemptsByWp);
    assert |state.attemptsByWp.Keys| == |state.attemptsByWp|;
    if state.attemptsByWp.Keys <= nameable {
      SubsetSize(state.attemptsByWp.Keys, nameable);
    }
  }

  lemma {:induction false} SubsetSize(a: set<string>, b: set<string>)
    requires a <= b
    ensures |a| <= |b|
  {
    if a != {} {
      var x :| x in a;
      SubsetSize(a - {x}, b - {x});
    }
  }

  // ---------- Which packages can be charged at all ----------

  /** An id that charges nobody new: empty, or one of the names. */
  predicate Named(id: string, names: set<string>) {
    Strip(id) == "" || Strip(id) in names
  }

  ghost predicate CoverageNamed(items: seq<Coverage>, names: set<string>) {
    forall c :: c in items ==> Named(c.wpId, names)
  }

  ghost predicate TestersNamed(findings: seq<TesterFinding>, names: set<string>) {
    forall f :: f in findings ==> Named(f.wpId, names)
  }

  ghost predicate ReconNamed(findings: seq<ReconFinding>, names: set<string>) {
    forall f :: f in findings ==> Named(f.wpId, names)
  }

  ghost predicate ItemsNamed(items: seq<WorkItem>, names: set<string>) {
    forall item :: item in items ==> Named(ItemId(item), names)
  }

  /** Everything a charge reads, and everybody charged so far, is among the names. */
  ghost predicate EvidenceNamed(state: State, names: set<string>) {
    && (state.summary.Some? ==> CoverageNamed(state.summary.value.coverage, names))
    && TestersNamed(state.testerFindings, names) && ReconNamed(state.reconFindings, names)
    && Named(state.currentSlice, names)
    && ItemsNamed(state.briefItems, names) && ItemsNamed(state.spec, names)
    && state.attemptsByWp.Keys <= names && UNKNOWN_FIXER_TARGET in names
  }

  ghost predicate AllNamed(values: seq<string>, names: set<string>) {
    forall v :: v in values ==> Named(v, names)
  }

  lemma {:induction false} CollectedNamed(values: seq<string>, names: set<string>)
    requires AllNamed(values, names)
    ensures forall t :: t in Collected(values) ==> t in names
  {
    if values != [] {
      var init, last := values[..|values| - 1], values[|values| - 1];
      assert values == init + [last];
      CollectedNamed(init, names);
      CollectedOne(init, last);
      assert Named(last, names);
    }
  }

  lemma {:induction false} SemanticNamed(coverage: seq<Coverage>, names: set<string>)
    requires CoverageNamed(coverage, names)
    ensures AllNamed(WpIds(Uncovered(coverage)), names)
  {
    if coverage != [] {
      var n := |coverage| - 1;
      assert coverage[n] in coverage;
      SemanticNamed(coverage[..n], names);
      UncoveredOne(coverage, n);
      assert coverage[..n + 1] == coverage;
    }
  }

  lemma {:induction false} TesterWpsNamed(findings: seq<TesterFinding>, names: set<string>)
    requires TestersNamed(findings, names)
    ensures AllNamed(TesterWps(findings), names)
  {
    if findings != [] {
      assert findings[|findings| - 1] in findings;
      TesterWpsNamed(findings[..|findings| - 1], names);
    }
  }

  lemma {:induction false} BlockingWpsNamed(findings: seq<ReconFinding>, names: set<string>)
    requires ReconNamed(findings, names)
    ensures AllNamed(BlockingWps(findings), names)
  {
    if findings != [] {
      assert findings[|findings| - 1] in findings;
      BlockingWpsNamed(findings[..|findings| - 1], names);
    }
  }

  lemma {:induction false} FirstItemNamed(items: seq<WorkItem>, names: set<string>)
    requires ItemsNamed(items, names) && UNKNOWN_FIXER_TARGET in names
    ensures Named(FirstItemId(items), names)
  {
    if items == [] {
      assert StripLeft(UNKNOWN_FIXER_TARGET) == UNKNOWN_FIXER_TARGET;
      assert StripRight(UNKNOWN_FIXER_TARGET) == UNKNOWN_FIXER_TARGET;
    } else {
      assert items[0] in items;
      FirstItemNamed(items[1..], names);
    }
  }

  /** Only packages named somewhere are ever charged. */
  lemma ChargedAreNamed(state: State, names: set<string>)
    requires EvidenceNamed(state, names)
    ensures forall wp :: wp in ChargedWps(state) ==> wp in names
    ensures EvidenceNamed(ChargeFixer(state), names)
  {
    hide Named, Collected, Charged;
    SemanticNamed(if state.summary.Some? then state.summary.value.coverage else [], names);
    TesterWpsNamed(state.testerFindings, names);
    BlockingWpsNamed(state.reconFindings, names);
    CollectedNamed(NamedByEvidence(state), names);
    FirstItemNamed(state.briefItems + state.spec, names);
    NamedAlone(state.currentSlice, names);
    NamedAlone(FirstBriefWpId(state), names);
    ChargedKeys(state.attemptsByWp, ChargedWps(state));
  }

  lemma NamedAlone(id: string, names: set<string>)
    ensures Named(id, names) <==> Strip(id) == "" || Strip(id) in names
  {}

  lemma ChargedKeys(attempts: map<string, nat>, targets: seq<string>)
    ensures forall key :: key in Charged(attempts, targets) <==> key in attempts || key in targets
  {}

  // ---------- Escalations and the fixer's delta ----------

  /** `_infeasible_predicate_escalation` fires. */
  predicate Infeasible(state: State) {
    exists f | f in state.testerFindings :: f.kind == "infeasible_predicate"
  }

  /** `_fixer_decision_escalation`: the reason a fixer's decision hands the run to a human. */
  function DecisionEscalation(state: State): Option<string> {
    match state.fixerDecision
    case None => None
    case Some(d) =>
      if d.decision == "needs_brief_change" then Some("needs_brief_change")
      else if d.decision == "cannot_fix" then Some("fixer_cannot_fix")
      else None
  }

  /** What one fixer activity returns: its decision and the discrepancies it was caught in. */
  datatype FixerReply = FixerReply(decision: FixerDecision, recon: seq<ReconFinding>)

  /** `_fixer_delta` merged into the state. */
  function MergeFixer(state: State, reply: FixerReply): State {
    state.(fixerDecision := Some(reply.decision), currentSlice := reply.decision.targetWp,
           reconFindings := state.reconFindings + reply.recon)
  }

  /** What the turns of one build emit on the list channels, and the slice the build ends on. */
  datatype BuildReply = BuildReply(currentSlice: string, testerFindings: seq<TesterFinding>, coverageEntries: seq<string>,
                                   recon: seq<ReconFinding>)

  /** The build subgraph's own result: its input with what was emitted. */
  function Subgraph(state: State, reply: BuildReply): State {
    state.(currentSlice := reply.currentSlice,
           testerFindings := state.testerFindings + reply.testerFindings,
           coverageEntries := state.coverageEntries + reply.coverageEntries,
           reconFindings := state.reconFindings + reply.recon)
  }

  /** The channels `build_stage` picks from that result. */
  datatype BuildDelta = BuildDelta(currentSlice: string, testerFindings: seq<TesterFinding>, coverageEntries: seq<string>)

  function BuildStageDelta(result: State): BuildDelta {
    BuildDelta(result.currentSlice, result.testerFindings, result.coverageEntries)
  }

  /** `merge` appends the channels picked to the input that they already contain. */
  function MergeBuild(state: State, reply: BuildReply): State {
    var delta := BuildStageDelta(Subgraph(state, reply));
    state.(currentSlice := delta.currentSlice,
           testerFindings := state.testerFindings + delta.testerFindings,
           coverageEntries := state.coverageEntries + delta.coverageEntries)
  }

  /** `_drop_stale_findings` with the counts snapshotted from `before`. */
  function DropStale(before: State, after: State): State
    requires |before.testerFindings| <= |after.testerFindings| && |before.reconFindings| <= |after.reconFindings|
  {
    after.(testerFindings := after.testerFindings[|before.testerFindings|..],
           reconFindings := after.reconFindings[|before.reconFindings|..])
  }

  /** After a fixer turn in the prompt workflow nothing stale is left. */
  lemma FixerTurnDropsStale(state: State, reply: FixerReply)
    ensures DropStale(state, MergeFixer(state, reply)).testerFindings == []
    ensures DropStale(state, MergeFixer(state, reply)).reconFindings == reply.recon
  {}

  /** After a rebuild the reconciliation findings are gone, but tester findings are fresh iff there
      were none before: the activity hands the old ones back. */
  lemma RebuildDropsStaleIff(state: State, reply: BuildReply)
    ensures DropStale(state, MergeBuild(state, reply)).reconFindings == []
    ensures DropStale(state, MergeBuild(state, reply)).testerFindings == state.testerFindings + reply.testerFindings
    ensures DropStale(state, MergeBuild(state, reply)).testerFindings == reply.testerFindings <==> state.testerFindings == []
  {
    var stale, both := state.testerFindings, state.testerFindings + reply.testerFindings;
    assert (stale + both)[|stale|..] == both;
    if both == reply.testerFindings {
      assert |both| == |stale| + |reply.testerFindings|;
    }
    if stale == [] {
      assert both == reply.testerFindings;
    }
  }
}
