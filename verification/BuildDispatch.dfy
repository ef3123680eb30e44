/** The build subgraph: a supervisor dispatches slices to Builder and Tester until all are done. */
module BuildDispatch {
  import opened Common
  import opened StateReducers
  import opened TopoSort

  datatype Worker = Builder | Tester

  /** One worker invocation on one slice. */
  datatype Turn = Turn(worker: Worker, slice: string)

  /** The supervisor's command; an order that names an id outside the spec is a lookup error. */
  datatype Command = Dispatch(worker: Worker) | Finish | KeyError

  /** How a worker's runner ends: an exception, or an answer carrying the work package id the
      agent wrote into it. */
  datatype Attempt = Crashed | Answered(reported: string)

  /** A dispatched turn and whether it recorded an output. */
  datatype Entry = Entry(turn: Turn, recorded: bool)

  /** The id a Builder output is recorded under: the dispatched slice overrides the agent's. */
  function RecordedId(slice: string, reported: string): string {
    if slice != "" then slice else reported
  }

  /** The Builder's output is certain to name the dispatched slice iff the slice has an id. */
  lemma BuilderPinnedIff(slice: string)
    ensures (forall reported :: RecordedId(slice, reported) == slice) <==> slice != ""
  {
    assert RecordedId("", "x") == "x";
  }

  /** The k-th successful turn of an undisturbed build: each slice built, then tested, in order. */
  function TurnAt(order: seq<string>, k: nat): Turn
    requires k < 2 * |order|
  {
    Turn(if k % 2 == 0 then Builder else Tester, order[k / 2])
  }

  function Successes(log: seq<Entry>): nat {
    if log == [] then 0
    else Successes(log[..|log| - 1]) + (if log[|log| - 1].recorded then 1 else 0)
  }

  /** Every dispatch is the next turn of the schedule: a failed turn is dispatched again. */
  ghost predicate FollowsSchedule(order: seq<string>, log: seq<Entry>) {
    log == [] ||
    var init := log[..|log| - 1];
    && FollowsSchedule(order, init)
    && Successes(init) < 2 * |order| && log[|log| - 1].turn == TurnAt(order, Successes(init))
  }

  /** Outputs recorded after k successful turns. */
  ghost predicate Progress(order: seq<string>, builders: seq<string>, testers: seq<string>, k: nat) {
    && k <= 2 * |order|
    && builders == order[..(k + 1) / 2]
    && testers == order[..k / 2]
  }

  predicate Complete(builders: seq<string>, testers: seq<string>, id: string) {
    id in builders && id in testers
  }

  /** The log reports exactly which of the attempts so far answered. */
  ghost predicate Answers(log: seq<Entry>, attempts: seq<Attempt>) {
    |log| <= |attempts| && forall i :: 0 <= i < |log| ==> log[i].recorded == attempts[i].Answered?
  }

  ghost predicate OnTrack(order: seq<string>, attempts: seq<Attempt>, log: seq<Entry>,
                          builders: seq<string>, testers: seq<string>)
  {
    FollowsSchedule(order, log) && Progress(order, builders, testers, Successes(log)) && Answers(log, attempts)
  }

  /** Where the supervisor stops reading the order: the first id that is unknown or lacks an output. */
  ghost predicate FirstStop(order: seq<string>, ids: seq<string>, builders: seq<string>, testers: seq<string>, i: int) {
    && 0 <= i < |order|
    && !(order[i] in ids && Complete(builders, testers, order[i]))
    && forall j :: 0 <= j < i ==> order[j] in ids && Complete(builders, testers, order[j])
  }

  /** Every slice has both outputs. */
  ghost predicate NothingMissing(order: seq<string>, builders: seq<string>, testers: seq<string>) {
    forall j :: 0 <= j < |order| ==> Complete(builders, testers, order[j])
  }

  /** `build_order` when it is set, else a fresh sort. */
  function EffectiveOrder(spec: seq<Slice>, buildOrder: Option<seq<string>>): seq<string> {
    if Items(buildOrder) == [] then Order(spec) else Items(buildOrder)
  }

  class BuildGraph {
    const spec: seq<Slice>
    var buildOrder: Option<seq<string>>
    var currentSlice: string
    var builderOutputs: seq<string>
    var testerOutputs: seq<string>
    var errorPatches: seq<Turn>
    ghost var log: seq<Entry>

    constructor (spec: seq<Slice>, buildOrder: Option<seq<string>>)
      ensures this.spec == spec && this.buildOrder == buildOrder
      ensures builderOutputs == [] && testerOutputs == [] && log == []
    {
      this.spec, this.buildOrder := spec, buildOrder;
      currentSlice, builderOutputs, testerOutputs, errorPatches, log := "", [], [], [], [];
    }

    /** A known slice with both outputs. */
    predicate Finished(id: string)
      reads `builderOutputs, `testerOutputs
    {
      id in Ids(spec) && Complete(builderOutputs, testerOutputs, id)
    }

    /** Dispatches the first slice of the order that still lacks an output; an id it does not know, when
        it is reached, is a lookup error. */
    method Supervise() returns (next: Command)
      modifies this`buildOrder, this`currentSlice
      ensures spec == [] ==> next == Finish && buildOrder == old(buildOrder) && currentSlice == old(currentSlice)
      ensures spec != [] ==> var order := EffectiveOrder(spec, old(buildOrder));
        && (next == Finish <==> forall j :: 0 <= j < |order| ==> Finished(order[j]))
        && (next == KeyError <==>
              exists i :: FirstStop(order, Ids(spec), builderOutputs, testerOutputs, i) && order[i] !in Ids(spec))
        && (next.Dispatch? ==>
              && next.worker == (if currentSlice in builderOutputs then Tester else Builder)
              && exists i :: FirstStop(order, Ids(spec), builderOutputs, testerOutputs, i) && currentSlice == order[i])
        && buildOrder == (if next == KeyError then old(buildOrder) else Some(order))
        && (!next.Dispatch? ==> currentSlice == old(currentSlice))
    {
      hide Ids, Order;
      if spec == [] {
        return Finish;
      }
      var order;
      if Items(buildOrder) == [] {
        order := Sort(spec);
      } else {
        order := Items(buildOrder);
      }
      assert order == EffectiveOrder(spec, old(buildOrder));
      for i := 0 to |order|
        invariant forall j :: 0 <= j < i ==> Finished(order[j])
        invariant buildOrder == old(buildOrder) && currentSlice == old(currentSlice)
      {
        if order[i] !in Ids(spec) {
          assert !Finished(order[i]) && FirstStop(order, Ids(spec), builderOutputs, testerOutputs, i);
          return KeyError;
        }
        if order[i] !in builderOutputs {
          buildOrder, currentSlice := Some(order), order[i];
          assert !Finished(order[i]) && FirstStop(order, Ids(spec), builderOutputs, testerOutputs, i);
          return Dispatch(Builder);
        }
        if order[i] !in testerOutputs {
          buildOrder, currentSlice := Some(order), order[i];
          assert !Finished(order[i]) && FirstStop(order, Ids(spec), builderOutputs, testerOutputs, i);
          return Dispatch(Tester);
        }
      }
      buildOrder := Some(order);
      next := Finish;
    }

    /** A worker node: an exception leaves only an error patch, an answer records one output. */
    method Work(worker: Worker, attempt: Attempt)
      modifies this`builderOutputs, this`testerOutputs, this`errorPatches, this`log
      ensures builderOutputs ==
        if attempt.Answered? && worker.Builder? then old(builderOutputs) + [RecordedId(currentSlice, attempt.reported)]
        else old(builderOutputs)
      ensures testerOutputs ==
        if attempt.Answered? && worker.Tester? then old(testerOutputs) + [currentSlice] else old(testerOutputs)
      ensures errorPatches ==
        if attempt.Crashed? then old(errorPatches) + [Turn(worker, currentSlice)] else old(errorPatches)
      ensures log == old(log) + [Entry(Turn(worker, currentSlice), attempt.Answered?)]
    {
      log := log + [Entry(Turn(worker, currentSlice), attempt.Answered?)];
      if attempt.Crashed? {
        errorPatches := errorPatches + [Turn(worker, currentSlice)];
        return;
      }
      match worker
      case Builder => builderOutputs := builderOutputs + [RecordedId(currentSlice, attempt.reported)];
      case Tester => testerOutputs := testerOutputs + [currentSlice];
    }

    /** What a run keeps between two supervisor calls. */
    ghost predicate OnSchedule(order: seq<string>, attempts: seq<Attempt>)
      reads `builderOutputs, `testerOutputs, `log
    {
      OnTrack(order, attempts, log, builderOutputs, testerOutputs)
    }

    /** The order of a run, and what the run demands of it. */
    ghost predicate RunsIn(order: seq<string>)
      reads `buildOrder
    {
      if spec == [] then order == []
      else
        && order == EffectiveOrder(spec, buildOrder)
        && Distinct(order) && "" !in order
        && forall id :: id in order ==> id in Ids(spec)
    }

    /** Supervision between two turns names the next turn of the schedule, or finishes. */
    method SuperviseInOrder(ghost order: seq<string>, ghost attempts: seq<Attempt>) returns (next: Command)
      requires RunsIn(order) && OnSchedule(order, attempts)
      modifies this`buildOrder, this`currentSlice
      ensures RunsIn(order) && OnSchedule(order, attempts)
      ensures next == Finish <==> Successes(log) == 2 * |order|
      ensures next != Finish ==>
        next.Dispatch? && Turn(next.worker, currentSlice) == TurnAt(order, Successes(log)) && currentSlice != ""
    {
      next := Supervise();
      if spec != [] {
        if next == Finish {
          AllComplete(order, builderOutputs, testerOutputs, Successes(log));
        } else {
          NextTurn(order, Ids(spec), builderOutputs, testerOutputs, Successes(log), currentSlice);
        }
      }
    }

    /** One turn of the schedule, successful or not. */
    method WorkInOrder(ghost order: seq<string>, worker: Worker, ghost attempts: seq<Attempt>, attempt: Attempt)
      requires RunsIn(order) && OnSchedule(order, attempts)
      requires |log| < |attempts| && attempt == attempts[|log|]
      requires Successes(log) < 2 * |order| && Turn(worker, currentSlice) == TurnAt(order, Successes(log))
      requires currentSlice != ""
      modifies this`builderOutputs, this`testerOutputs, this`errorPatches, this`log
      ensures RunsIn(order) && OnSchedule(order, attempts) && |log| == old(|log|) + 1
    {
      TurnTaken(order, attempts, log, builderOutputs, testerOutputs, worker, currentSlice);
      Work(worker, attempt);
    }

    /** The graph run: supervisor and workers alternate until the supervisor finishes, or until the
        given worker outcomes are used up (a run still in progress). */
    method Run(attempts: seq<Attempt>, ghost order: seq<string>) returns (finished: bool)
      requires builderOutputs == [] && testerOutputs == [] && log == []
      requires RunsIn(order)
      modifies this
      ensures OnSchedule(order, attempts)
      ensures finished <==> Successes(log) == 2 * |order|
      ensures !finished ==> |log| == |attempts|
    {
      var used := 0;
      while true
        invariant used == |log| && RunsIn(order) && OnSchedule(order, attempts)
        decreases |attempts| - used
      {
        var next := SuperviseInOrder(order, attempts);
        if next == Finish {
          return true;
        }
        if used == |attempts| {
          return false;
        }
        WorkInOrder(order, next.worker, attempts, attempts[used]);
        used := used + 1;
      }
    }
  }

  /** With distinct ids a prefix holds exactly the slices before it ends. */
  lemma InPrefix(order: seq<string>, n: nat)
    requires Distinct(order) && n <= |order|
    ensures forall i :: 0 <= i < |order| ==> (order[i] in order[..n] <==> i < n)
  {
    forall i | 0 <= i < |order| ensures order[i] in order[..n] <==> i < n {
      if i < n {
        assert order[..n][i] == order[i];
      }
    }
  }

  lemma CompleteInOrder(order: seq<string>, builders: seq<string>, testers: seq<string>, k: nat)
    requires Distinct(order) && Progress(order, builders, testers, k)
    ensures forall i :: 0 <= i < |order| ==> (order[i] in builders <==> i < (k + 1) / 2)
    ensures forall i :: 0 <= i < |order| ==> (Complete(builders, testers, order[i]) <==> i < k / 2)
  {
    InPrefix(order, (k + 1) / 2);
    InPrefix(order, k / 2);
  }

  /** The first incomplete slice after k turns is the one the schedule names. */
  lemma NextTurn(order: seq<string>, ids: seq<string>, builders: seq<string>, testers: seq<string>, k: nat, id: string)
    requires forall known :: known in order ==> known in ids
    requires Distinct(order) && Progress(order, builders, testers, k)
    requires exists i :: FirstStop(order, ids, builders, testers, i) && id == order[i]
    ensures k < 2 * |order| && TurnAt(order, k) == Turn(if id in builders then Tester else Builder, id)
  {
    CompleteInOrder(order, builders, testers, k);
    var i :| FirstStop(order, ids, builders, testers, i) && id == order[i];
    assert k / 2 < |order| ==> !Complete(builders, testers, order[k / 2]);
    assert i == k / 2;
  }

  lemma AllComplete(order: seq<string>, builders: seq<string>, testers: seq<string>, k: nat)
    requires Distinct(order) && Progress(order, builders, testers, k)
    requires NothingMissing(order, builders, testers)
    ensures k == 2 * |order|
  {
    CompleteInOrder(order, builders, testers, k);
    if order != [] {
      assert Complete(builders, testers, order[|order| - 1]);
    }
  }

  lemma LogOne(order: seq<string>, log: seq<Entry>, e: Entry)
    requires FollowsSchedule(order, log)
    requires Successes(log) < 2 * |order| && e.turn == TurnAt(order, Successes(log))
    ensures FollowsSchedule(order, log + [e])
    ensures Successes(log + [e]) == Successes(log) + (if e.recorded then 1 else 0)
  {
    assert (log + [e])[..|log + [e]| - 1] == log;
  }

  /** The dispatch after any part of the log is the turn its successes call for: after a success
      the next one, after a crash the same one again. */
  lemma {:induction false} DispatchAfter(order: seq<string>, log: seq<Entry>, i: nat)
    requires FollowsSchedule(order, log) && i < |log|
    ensures Successes(log[..i]) < 2 * |order| && log[i].turn == TurnAt(order, Successes(log[..i]))
    ensures i > 0 && !log[i - 1].recorded ==> log[i].turn == log[i - 1].turn
    decreases |log|
  {
    var init := log[..|log| - 1];
    if i < |log| - 1 {
      DispatchAfter(order, init, i);
      assert init[..i] == log[..i];
    } else if i > 0 {
      DispatchAfter(order, init, i - 1);
      assert log[..i] == init && init[..i - 1] == log[..i - 1];
      assert log[..i][..i - 1] == log[..i - 1];
    }
  }

  /** A recorded output moves the schedule on by one, a crash leaves it where it was. */
  lemma ProgressOne(order: seq<string>, builders: seq<string>, testers: seq<string>, k: nat, recorded: bool)
    requires k < 2 * |order| && Progress(order, builders, testers, k)
    ensures var turn := TurnAt(order, k);
      Progress(order,
               if recorded && turn.worker.Builder? then builders + [turn.slice] else builders,
               if recorded && turn.worker.Tester? then testers + [turn.slice] else testers,
               if recorded then k + 1 else k)
  {
    if k % 2 == 0 {
      assert order[..k / 2 + 1] == order[..k / 2] + [order[k / 2]];
      assert (k + 1) / 2 == k / 2 && (k + 2) / 2 == k / 2 + 1;
    } else {
      assert order[..k / 2 + 1] == order[..k / 2] + [order[k / 2]];
      assert (k + 1) / 2 == k / 2 + 1 && (k + 2) / 2 == k / 2 + 1;
    }
  }

  lemma AnswersOne(log: seq<Entry>, attempts: seq<Attempt>, turn: Turn)
    requires Answers(log, attempts) && |log| < |attempts|
    ensures Answers(log + [Entry(turn, attempts[|log|].Answered?)], attempts)
  {}

  lemma TurnTaken(order: seq<string>, attempts: seq<Attempt>, log: seq<Entry>,
                  builders: seq<string>, testers: seq<string>, worker: Worker, slice: string)
    requires OnTrack(order, attempts, log, builders, testers) && |log| < |attempts|
    requires Successes(log) < 2 * |order| && Turn(worker, slice) == TurnAt(order, Successes(log))
    ensures var recorded := attempts[|log|].Answered?;
      OnTrack(order, attempts, log + [Entry(Turn(worker, slice), recorded)],
              if recorded && worker.Builder? then builders + [slice] else builders,
              if recorded && worker.Tester? then testers + [slice] else testers)
  {
    hide FollowsSchedule, Answers, Progress, Successes, TurnAt;
    var k, recorded := Successes(log), attempts[|log|].Answered?;
    LogOne(order, log, Entry(Turn(worker, slice), recorded));
    AnswersOne(log, attempts, Turn(worker, slice));
    ProgressOne(order, builders, testers, k, recorded);
    assert Successes(log + [Entry(Turn(worker, slice), recorded)]) == if recorded then k + 1 else k;
  }

  /** A run that reaches the end recorded exactly one Builder and one Tester output per slice, in
      build order. */
  lemma FinishedBuildIsExact(order: seq<string>, builders: seq<string>, testers: seq<string>, k: nat)
    requires Progress(order, builders, testers, k) && k == 2 * |order|
    ensures builders == order && testers == order
  {}

  /** Missing outputs: the measure every successful turn decreases. */
  function Missing(order: seq<string>, builders: seq<string>, testers: seq<string>): int {
    2 * |order| - |builders| - |testers|
  }

  lemma MissingIsTurnsLeft(order: seq<string>, builders: seq<string>, testers: seq<string>, k: nat)
    requires Progress(order, builders, testers, k)
    ensures Missing(order, builders, testers) == 2 * |order| - k >= 0
  {}

  /** On an acyclic spec with distinct ids the fresh order serves every dispatched slice after all
      its dependencies were built and tested. */
  lemma DispatchedAfterDeps(spec: seq<Slice>, builders: seq<string>, testers: seq<string>, k: nat)
    requires Acyclic(spec) && k < 2 * |Order(spec)|
    requires Progress(Order(spec), builders, testers, k)
    ensures forall d :: d in Deps(spec, TurnAt(Order(spec), k).slice) ==> Complete(builders, testers, d)
  {
    FallbackIffCycle(spec);
    TailIsStuckIds(spec);
    OrderRespectsDeps(spec, k / 2);
    assert Order(spec)[..k / 2] <= Order(spec)[..(k + 1) / 2];
    forall d | d in Order(spec)[..k / 2] ensures d in builders {
      var n :| 0 <= n < k / 2 && Order(spec)[..k / 2][n] == d;
      assert builders[n] == d;
    }
  }

  /** A fresh order over distinct ids meets the scheduler's demands. */
  lemma FreshOrderIsUsable(spec: seq<Slice>)
    requires Distinct(Ids(spec))
    ensures Distinct(Order(spec)) && |Order(spec)| == |spec|
    ensures forall id :: id in Order(spec) <==> id in Ids(spec)
  {
    OrderPermutesIds(spec);
    SameMultisetDistinct(Ids(spec), Order(spec));
    assert |multiset(Order(spec))| == |Order(spec)| && |multiset(Ids(spec))| == |Ids(spec)|;
    forall id ensures id in Order(spec) <==> id in Ids(spec) {
      assert id in multiset(Order(spec)) <==> id in multiset(Ids(spec));
    }
  }

  lemma {:induction false} DistinctCounts(s: seq<string>)
    ensures Distinct(s) <==> forall x :: multiset(s)[x] <= 1
    decreases |s|
  {
    if s != [] {
      var init, last := s[..|s| - 1], s[|s| - 1];
      assert s == init + [last];
      DistinctCounts(init);
      if Distinct(s) {
        assert last !in init;
        assert multiset(init)[last] == 0;
      } else if Distinct(init) {
        var i, j :| 0 <= i < j < |s| && s[i] == s[j];
        assert j == |s| - 1 && init[i] == last;
        assert multiset(s)[last] >= 2;
      } else {
        var x :| multiset(init)[x] > 1;
        assert multiset(s)[x] > 1;
      }
    }
  }

  lemma SameMultisetDistinct(s: seq<string>, t: seq<string>)
    requires multiset(s) == multiset(t) && Distinct(s)
    ensures Distinct(t)
  {
    DistinctCounts(s);
    DistinctCounts(t);
  }
}
