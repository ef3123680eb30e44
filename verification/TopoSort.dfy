/** Layered topological order of the build slices, with the cycle fallback. */
module TopoSort {
  import opened StateReducers

  /** A slice id with the ids it depends on. */
  type Slice = Keyed<seq<string>>

  /** Dependencies inside the spec; unknown ids count as already met. With a repeated id the
      dictionary keeps the last slice. */
  function Deps(spec: seq<Slice>, id: string): set<string> {
    if id in Ids(spec) then set d | d in LastWrite(spec, id).payload && d in Ids(spec)
    else {}
  }

  function Keep(s: seq<string>, wanted: set<string>): seq<string> {
    if s == [] then []
    else (if s[0] in wanted then [s[0]] else []) + Keep(s[1..], wanted)
  }

  function Drop(s: seq<string>, unwanted: set<string>): seq<string> {
    if s == [] then []
    else (if s[0] in unwanted then [] else [s[0]]) + Drop(s[1..], unwanted)
  }

  function Elements(s: seq<string>): set<string> {
    set x | x in s
  }

  lemma {:induction false} KeepDropFacts(s: seq<string>, w: set<string>)
    ensures forall x :: x in Keep(s, w) <==> x in s && x in w
    ensures forall x :: x in Drop(s, w) <==> x in s && x !in w
    ensures multiset(Keep(s, w)) + multiset(Drop(s, w)) == multiset(s)
    ensures |Keep(s, w)| + |Drop(s, w)| == |s|
  {
    if s != [] {
      KeepDropFacts(s[1..], w);
      assert s == [s[0]] + s[1..];
    }
  }

  lemma {:induction false} DropTwice(s: seq<string>, a: set<string>, b: set<string>)
    ensures Drop(Drop(s, a), b) == Drop(s, a + b)
  {
    if s != [] {
      DropTwice(s[1..], a, b);
      assert Drop(s, a) == if s[0] in a then Drop(s[1..], a) else [s[0]] + Drop(s[1..], a);
      if s[0] !in a {
        assert Drop(s, a)[1..] == Drop(s[1..], a);
      }
    }
  }

  // ---------- Kahn's algorithm by layers ----------

  function Remaining(spec: seq<Slice>, placed: set<string>): seq<string> {
    Drop(Ids(spec), placed)
  }

  /** Unplaced ids whose dependencies are all placed. */
  function ReadySet(spec: seq<Slice>, placed: set<string>): set<string> {
    set id | id in Remaining(spec, placed) && Deps(spec, id) <= placed
  }

  lemma {:induction false} KeepNothing(s: seq<string>)
    ensures Keep(s, {}) == []
  {
    if s != [] {
      KeepNothing(s[1..]);
    }
  }

  lemma LayerShrinks(spec: seq<Slice>, placed: set<string>)
    ensures Keep(Remaining(spec, placed), ReadySet(spec, placed)) == [] <==> ReadySet(spec, placed) == {}
    ensures ReadySet(spec, placed) != {} ==>
      |Remaining(spec, placed + ReadySet(spec, placed))| < |Remaining(spec, placed)|
    ensures Remaining(spec, placed + ReadySet(spec, placed)) == Drop(Remaining(spec, placed), ReadySet(spec, placed))
    ensures Elements(Keep(Remaining(spec, placed), ReadySet(spec, placed))) == ReadySet(spec, placed)
  {
    var ready := ReadySet(spec, placed);
    DropTwice(Ids(spec), placed, ready);
    KeepDropFacts(Remaining(spec, placed), ready);
    var layer := Keep(Remaining(spec, placed), ready);
    if ready == {} {
      KeepNothing(Remaining(spec, placed));
    } else {
      var id :| id in ready;
      assert id in layer;
    }
  }

  /** The ids placed by complete layers, from a set already placed. */
  function Settled(spec: seq<Slice>, placed: set<string>): set<string>
    decreases |Remaining(spec, placed)|
  {
    LayerShrinks(spec, placed);
    var ready := ReadySet(spec, placed);
    if ready == {} then placed else Settled(spec, placed + ready)
  }

  /** The layers in order, each in spec order. */
  function Layers(spec: seq<Slice>, placed: set<string>): seq<string>
    decreases |Remaining(spec, placed)|
  {
    LayerShrinks(spec, placed);
    var ready := ReadySet(spec, placed);
    if ready == {} then [] else Keep(Remaining(spec, placed), ready) + Layers(spec, placed + ready)
  }

  /** The layers, then whatever is left in declared order. */
  function Order(spec: seq<Slice>): seq<string> {
    Layers(spec, {}) + Remaining(spec, Settled(spec, {}))
  }

  /** What the loop of `topo_sort` maintains: the unplaced ids, with the dependencies they still wait for. */
  ghost predicate Waiting(spec: seq<Slice>, placed: set<string>, remaining: seq<string>,
                          pending: map<string, set<string>>)
  {
    && remaining == Remaining(spec, placed)
    && pending.Keys == Elements(Ids(spec))
    && forall id :: id in remaining ==> id in pending && pending[id] == Deps(spec, id) - placed
  }

  lemma EmptyDifference(a: set<string>, b: set<string>)
    ensures a - b == {} <==> a <= b
  {
    forall x | x in a && x !in b ensures a - b != {} {
      assert x in a - b;
    }
  }

  lemma WaitingReady(spec: seq<Slice>, placed: set<string>, remaining: seq<string>, pending: map<string, set<string>>)
    requires Waiting(spec, placed, remaining, pending)
    ensures (set id | id in remaining && pending[id] == {}) == ReadySet(spec, placed)
  {
    forall id | id in remaining ensures pending[id] == {} <==> Deps(spec, id) <= placed {
      EmptyDifference(Deps(spec, id), placed);
    }
  }

  lemma WaitingStep(spec: seq<Slice>, placed: set<string>, remaining: seq<string>,
                    pending: map<string, set<string>>, released: map<string, set<string>>)
    requires Waiting(spec, placed, remaining, pending)
    requires released.Keys == pending.Keys
    requires forall id :: id in Drop(remaining, ReadySet(spec, placed)) && id in pending ==>
      released[id] == pending[id] - ReadySet(spec, placed)
    ensures Waiting(spec, placed + ReadySet(spec, placed), Drop(remaining, ReadySet(spec, placed)), released)
  {
    LayerShrinks(spec, placed);
    KeepDropFacts(remaining, ReadySet(spec, placed));
    forall id | id in Drop(remaining, ReadySet(spec, placed))
      ensures released[id] == Deps(spec, id) - (placed + ReadySet(spec, placed))
    {
      assert released[id] == Deps(spec, id) - placed - ReadySet(spec, placed);
    }
  }

  /** One turn of the loop on the functional side. */
  lemma LayersUnfold(spec: seq<Slice>, placed: set<string>)
    ensures var ready := ReadySet(spec, placed);
            if ready == {} then Layers(spec, placed) == [] && Settled(spec, placed) == placed
            else && Layers(spec, placed) == Keep(Remaining(spec, placed), ready) + Layers(spec, placed + ready)
                 && Settled(spec, placed) == Settled(spec, placed + ready)
    ensures Keep(Remaining(spec, placed), ReadySet(spec, placed)) == [] <==> ReadySet(spec, placed) == {}
  {
    LayerShrinks(spec, placed);
  }

  /** The order so far is what the finished layers contribute. */
  ghost predicate Sorted(spec: seq<Slice>, placed: set<string>, order: seq<string>) {
    order + Layers(spec, placed) == Layers(spec, {}) && Settled(spec, placed) == Settled(spec, {})
  }

  lemma SortedStep(spec: seq<Slice>, placed: set<string>, order: seq<string>)
    requires Sorted(spec, placed, order) && ReadySet(spec, placed) != {}
    ensures Sorted(spec, placed + ReadySet(spec, placed), order + Keep(Remaining(spec, placed), ReadySet(spec, placed)))
  {
    LayersUnfold(spec, placed);
    var ready := ReadySet(spec, placed);
    var layer, later := Keep(Remaining(spec, placed), ready), Layers(spec, placed + ready);
    assert order + layer + later == order + (layer + later);
  }

  lemma SortedDone(spec: seq<Slice>, placed: set<string>, order: seq<string>)
    requires Sorted(spec, placed, order) && ReadySet(spec, placed) == {}
    ensures order + Remaining(spec, placed) == Order(spec)
  {
    LayersUnfold(spec, placed);
    assert order + [] == order;
  }

  /** `topo_sort`. */
  method Sort(spec: seq<Slice>) returns (order: seq<string>)
    ensures order == Order(spec)
  {
    var remaining := Ids(spec);
    var pending := map id | id in Ids(spec) :: Deps(spec, id);
    order := [];
    ghost var placed: set<string> := {};
    DropNothing(remaining);
    while remaining != []
      invariant Waiting(spec, placed, remaining, pending)
      invariant Sorted(spec, placed, order)
      decreases |remaining|
    {
      WaitingReady(spec, placed, remaining, pending);
      var readySet := set id | id in remaining && pending[id] == {};
      var ready := Keep(remaining, readySet);
      LayersUnfold(spec, placed);
      if ready == [] {
        SortedDone(spec, placed, order);
        order := order + remaining;
        return;
      }
      SortedStep(spec, placed, order);
      order := order + ready;
      KeepDropFacts(remaining, readySet);
      var rest := Drop(remaining, readySet);
      var released := Release(pending, rest, readySet);
      WaitingStep(spec, placed, remaining, pending, released);
      remaining, pending, placed := rest, released, placed + readySet;
    }
    NothingRemains(spec, placed);
    SortedDone(spec, placed, order);
    assert order + [] == order;
  }

  lemma NothingRemains(spec: seq<Slice>, placed: set<string>)
    requires Remaining(spec, placed) == []
    ensures ReadySet(spec, placed) == {}
  {}

  lemma {:induction false} DropNothing(s: seq<string>)
    ensures Drop(s, {}) == s
  {
    if s != [] {
      DropNothing(s[1..]);
    }
  }

  /** The inner loop: the slices still waiting forget the layer just placed. */
  method Release(pending: map<string, set<string>>, waiting: seq<string>, layer: set<string>)
    returns (updated: map<string, set<string>>)
    requires forall id :: id in waiting ==> id in pending
    ensures updated.Keys == pending.Keys
    ensures forall id :: id in pending ==>
      updated[id] == if id in waiting then pending[id] - layer else pending[id]
  {
    updated := pending;
    for n := 0 to |waiting|
      invariant updated.Keys == pending.Keys
      invariant forall id :: id in pending ==>
        updated[id] == if id in waiting[..n] then pending[id] - layer else pending[id]
    {
      updated := updated[waiting[n] := updated[waiting[n]] - layer];
      assert waiting[..n + 1] == waiting[..n] + [waiting[n]];
    }
    assert waiting[..|waiting|] == waiting;
  }

  // ---------- The dependency graph ----------

  /** A walk along dependency edges. */
  ghost predicate Walk(spec: seq<Slice>, p: seq<string>) {
    && |p| >= 1
    && forall i :: 0 <= i < |p| - 1 ==> p[i + 1] in Deps(spec, p[i])
  }

  ghost predicate WalkFromTo(spec: seq<Slice>, p: seq<string>, a: string, b: string) {
    Walk(spec, p) && |p| >= 2 && p[0] == a && p[|p| - 1] == b
  }

  /** The id transitively depends on itself; a self-loop counts. */
  ghost predicate OnCycle(spec: seq<Slice>, id: string) {
    exists p :: WalkFromTo(spec, p, id, id)
  }

  /** The id transitively depends on a cycle (an id on a cycle does). */
  ghost predicate Stuck(spec: seq<Slice>, id: string) {
    exists p, c :: WalkFromTo(spec, p, id, c) && OnCycle(spec, c)
  }

  ghost predicate Acyclic(spec: seq<Slice>) {
    forall id :: !OnCycle(spec, id)
  }

  ghost function StuckIds(spec: seq<Slice>, ids: seq<string>): seq<string> {
    if ids == [] then []
    else (if Stuck(spec, ids[0]) then [ids[0]] else []) + StuckIds(spec, ids[1..])
  }

  lemma WalkParts(spec: seq<Slice>, p: seq<string>, i: nat, j: nat)
    requires Walk(spec, p) && i <= j < |p|
    ensures Walk(spec, p[i..j + 1])
  {}

  lemma CycleIsStuck(spec: seq<Slice>, id: string)
    requires OnCycle(spec, id)
    ensures Stuck(spec, id)
  {
    var p :| WalkFromTo(spec, p, id, id);
  }

  /** A stuck id depends on a stuck id. */
  lemma StuckStep(spec: seq<Slice>, id: string) returns (d: string)
    requires Stuck(spec, id)
    ensures d in Deps(spec, id) && Stuck(spec, d)
  {
    var p, c :| WalkFromTo(spec, p, id, c) && OnCycle(spec, c);
    d := p[1];
    if |p| == 2 {
      CycleIsStuck(spec, d);
    } else {
      assert WalkFromTo(spec, p[1..], d, c);
    }
  }

  // ---------- Settled ids are exactly the ones that are not stuck ----------

  /** A set that layers can build up: no member is stuck. */
  lemma {:induction false} SettledNotStuck(spec: seq<Slice>, placed: set<string>)
    requires forall id :: id in placed ==> !Stuck(spec, id)
    ensures placed <= Settled(spec, placed)
    ensures forall id :: id in Settled(spec, placed) ==> !Stuck(spec, id)
    ensures ReadySet(spec, Settled(spec, placed)) == {}
    decreases |Remaining(spec, placed)|
  {
    LayerShrinks(spec, placed);
    var ready := ReadySet(spec, placed);
    if ready != {} {
      forall id | id in ready ensures !Stuck(spec, id) {
        if Stuck(spec, id) {
          var d := StuckStep(spec, id);
        }
      }
      SettledNotStuck(spec, placed + ready);
    }
  }

  /** A walk of n steps inside a set where every id depends on another of the set. */
  lemma {:induction false} LongWalk(spec: seq<Slice>, within: set<string>, id: string, n: nat) returns (p: seq<string>)
    requires forall x :: x in within ==> Deps(spec, x) * within != {}
    requires id in within
    ensures |p| == n + 1 && Walk(spec, p) && p[0] == id && forall i :: 0 <= i < |p| ==> p[i] in within
    decreases n
  {
    if n == 0 {
      p := [id];
    } else {
      var d :| d in Deps(spec, id) * within;
      var rest := LongWalk(spec, within, d, n - 1);
      p := [id] + rest;
    }
  }

  lemma {:induction false} Pigeonhole(p: seq<string>, within: set<string>)
    requires |p| > |within| && forall i :: 0 <= i < |p| ==> p[i] in within
    ensures exists i, j :: 0 <= i < j < |p| && p[i] == p[j]
    decreases |p|
  {
    var last := |p| - 1;
    if i :| 0 <= i < last && p[i] == p[last] {
    } else {
      assert |within - {p[last]}| == |within| - 1;
      Pigeonhole(p[..last], within - {p[last]});
      var i, j :| 0 <= i < j < last && p[..last][i] == p[..last][j];
      assert p[i] == p[j];
    }
  }

  lemma ClosedSetIsStuck(spec: seq<Slice>, within: set<string>, id: string)
    requires forall x :: x in within ==> Deps(spec, x) * within != {}
    requires id in within
    ensures Stuck(spec, id)
  {
    var p := LongWalk(spec, within, id, |within|);
    Pigeonhole(p, within);
    var i: nat, j: nat :| i < j < |p| && p[i] == p[j];
    RevisitIsStuck(spec, p, i, j);
  }

  lemma RevisitIsStuck(spec: seq<Slice>, p: seq<string>, i: nat, j: nat)
    requires Walk(spec, p) && i < j < |p| && p[i] == p[j]
    ensures Stuck(spec, p[0])
  {
    var loop, lead := p[i..j + 1], p[..j + 1];
    WalkParts(spec, p, i, j);
    assert WalkFromTo(spec, loop, p[j], p[j]);
    WalkParts(spec, p, 0, j);
    assert lead == p[0..j + 1];
    assert WalkFromTo(spec, lead, p[0], p[j]);
  }

  lemma SettledExactly(spec: seq<Slice>)
    ensures forall id :: id in Ids(spec) ==> (id in Settled(spec, {}) <==> !Stuck(spec, id))
  {
    SettledNotStuck(spec, {});
    var settled := Settled(spec, {});
    var left := Remaining(spec, settled);
    var within := Elements(left);
    KeepDropFacts(Ids(spec), settled);
    forall x | x in within ensures Deps(spec, x) * within != {} {
      assert x !in ReadySet(spec, settled);
      var d :| d in Deps(spec, x) && d !in settled;
      assert d in within;
    }
    forall id | id in Ids(spec) && id !in settled ensures Stuck(spec, id) {
      ClosedSetIsStuck(spec, within, id);
    }
  }

  // ---------- What the order promises ----------

  lemma {:induction false} SettledGrows(spec: seq<Slice>, placed: set<string>)
    ensures placed <= Settled(spec, placed)
    decreases |Remaining(spec, placed)|
  {
    LayerShrinks(spec, placed);
    if ReadySet(spec, placed) != {} {
      SettledGrows(spec, placed + ReadySet(spec, placed));
    }
  }

  lemma {:induction false} LayersMembers(spec: seq<Slice>, placed: set<string>)
    ensures forall id :: id in Layers(spec, placed) ==> id in Ids(spec) && id !in placed && id in Settled(spec, placed)
    decreases |Remaining(spec, placed)|
  {
    LayerShrinks(spec, placed);
    var ready := ReadySet(spec, placed);
    if ready != {} {
      KeepDropFacts(Ids(spec), placed);
      KeepDropFacts(Remaining(spec, placed), ready);
      LayersMembers(spec, placed + ready);
      SettledGrows(spec, placed + ready);
    }
  }

  lemma {:induction false} LayersPermute(spec: seq<Slice>, placed: set<string>)
    ensures multiset(Layers(spec, placed)) + multiset(Remaining(spec, Settled(spec, placed)))
         == multiset(Remaining(spec, placed))
    decreases |Remaining(spec, placed)|
  {
    LayerShrinks(spec, placed);
    var ready := ReadySet(spec, placed);
    if ready != {} {
      KeepDropFacts(Remaining(spec, placed), ready);
      LayersPermute(spec, placed + ready);
    }
  }

  /** Every dependency of s[i] is placed already or stands before i, and none of its copies after. */
  ghost predicate Behind(spec: seq<Slice>, placed: set<string>, s: seq<string>, i: nat)
    requires i < |s|
  {
    forall d :: d in Deps(spec, s[i]) ==> (d in placed || d in s[..i]) && d !in s[i..]
  }

  lemma {:induction false} LayersOrdered(spec: seq<Slice>, placed: set<string>)
    ensures forall i :: 0 <= i < |Layers(spec, placed)| ==> Behind(spec, placed, Layers(spec, placed), i)
    decreases |Remaining(spec, placed)|
  {
    LayerShrinks(spec, placed);
    var ready := ReadySet(spec, placed);
    if ready != {} {
      var layer, later := Keep(Remaining(spec, placed), ready), Layers(spec, placed + ready);
      LayersOrdered(spec, placed + ready);
      LayersMembers(spec, placed + ready);
      forall i | 0 <= i < |layer + later| ensures Behind(spec, placed, layer + later, i) {
        if i < |layer| {
          FirstLayerBehind(spec, placed, later, i);
        } else {
          LaterLayerBehind(spec, placed, layer, later, i - |layer|);
        }
      }
    }
  }

  lemma FirstLayerBehind(spec: seq<Slice>, placed: set<string>, later: seq<string>, i: nat)
    requires i < |Keep(Remaining(spec, placed), ReadySet(spec, placed))|
    requires forall id :: id in later ==> id !in placed
    ensures Behind(spec, placed, Keep(Remaining(spec, placed), ReadySet(spec, placed)) + later, i)
  {
    hide Deps, Keep, Ids;
    var layer := Keep(Remaining(spec, placed), ReadySet(spec, placed));
    KeepDropFacts(Remaining(spec, placed), ReadySet(spec, placed));
    KeepDropFacts(Ids(spec), placed);
    assert layer[i] in layer;
    assert (layer + later)[i..] == layer[i..] + later;
    forall d | d in placed ensures d !in layer[i..] {}
  }

  lemma LaterLayerBehind(spec: seq<Slice>, placed: set<string>, layer: seq<string>, later: seq<string>, i: nat)
    requires i < |later| && Elements(layer) == ReadySet(spec, placed)
    requires Behind(spec, placed + ReadySet(spec, placed), later, i)
    ensures Behind(spec, placed, layer + later, |layer| + i)
  {
    assert (layer + later)[..|layer| + i] == layer + later[..i];
    assert (layer + later)[|layer| + i..] == later[i..];
    forall d | d in ReadySet(spec, placed) ensures d in layer {
      assert d in Elements(layer);
    }
  }

  lemma {:induction false} DropIsStuckIds(spec: seq<Slice>, ids: seq<string>, settled: set<string>)
    requires forall id :: id in ids ==> (id in settled <==> !Stuck(spec, id))
    ensures Drop(ids, settled) == StuckIds(spec, ids)
  {
    if ids != [] {
      DropIsStuckIds(spec, ids[1..], settled);
    }
  }

  /** The fallback tail is exactly the stuck ids in declared order. */
  lemma TailIsStuckIds(spec: seq<Slice>)
    ensures Remaining(spec, Settled(spec, {})) == StuckIds(spec, Ids(spec))
    ensures Order(spec) == Layers(spec, {}) + StuckIds(spec, Ids(spec))
    ensures forall id :: id in Layers(spec, {}) ==> !Stuck(spec, id)
  {
    SettledExactly(spec);
    DropIsStuckIds(spec, Ids(spec), Settled(spec, {}));
    LayersMembers(spec, {});
  }

  lemma OrderPermutesIds(spec: seq<Slice>)
    ensures multiset(Order(spec)) == multiset(Ids(spec))
  {
    LayersPermute(spec, {});
    DropNothing(Ids(spec));
  }

  /** Everything before the tail comes after all its dependencies, every copy of them. */
  lemma OrderRespectsDeps(spec: seq<Slice>, i: nat)
    requires i < |Order(spec)| - |StuckIds(spec, Ids(spec))|
    ensures !Stuck(spec, Order(spec)[i])
    ensures Behind(spec, {}, Order(spec), i)
  {
    hide Order, Layers, StuckIds, Stuck, Deps, Behind;
    TailIsStuckIds(spec);
    LayersOrdered(spec, {});
    StuckIdsFacts(spec, Ids(spec));
    var layers, tail := Layers(spec, {}), StuckIds(spec, Ids(spec));
    assert layers[i] in layers;
    forall d | d in layers ensures d !in tail {}
    BehindBeforeTail(spec, layers, tail, i);
  }

  lemma BehindBeforeTail(spec: seq<Slice>, layers: seq<string>, tail: seq<string>, i: nat)
    requires i < |layers| && Behind(spec, {}, layers, i) && forall d :: d in layers ==> d !in tail
    ensures Behind(spec, {}, layers + tail, i)
  {
    hide Deps;
    assert (layers + tail)[..i] == layers[..i];
    assert (layers + tail)[i..] == layers[i..] + tail;
    forall d | d in layers[..i] ensures d in layers {}
  }

  lemma {:induction false} StuckIdsFacts(spec: seq<Slice>, ids: seq<string>)
    ensures forall id :: id in StuckIds(spec, ids) <==> id in ids && Stuck(spec, id)
  {
    if ids != [] {
      StuckIdsFacts(spec, ids[1..]);
      assert ids == [ids[0]] + ids[1..];
    }
  }

  /** The fallback is taken iff the dependency graph has a cycle. */
  lemma FallbackIffCycle(spec: seq<Slice>)
    ensures Remaining(spec, Settled(spec, {})) != [] <==> !Acyclic(spec)
  {
    TailIsStuckIds(spec);
    StuckIdsFacts(spec, Ids(spec));
    if StuckIds(spec, Ids(spec)) != [] {
      var id := StuckIds(spec, Ids(spec))[0];
      assert Stuck(spec, id);
    }
    if id :| OnCycle(spec, id) {
      CycleIsStuck(spec, id);
      var p :| WalkFromTo(spec, p, id, id);
      assert p[1] in Deps(spec, p[0]);
      assert id in StuckIds(spec, Ids(spec));
    }
  }
}
