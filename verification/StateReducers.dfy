/** The channel reducers of the pipeline state and the `merge` that applies them. */
module StateReducers {
  import opened Common

  // ---------- Bounded logs ----------

  /** The last `cap` entries. */
  function LastN<T>(s: seq<T>, cap: nat): (r: seq<T>) {
    if |s| > cap then s[|s| - cap..] else s
  }

  /** The reducer built by `_bounded_add`, on lists that may be missing. */
  function BoundedAdd<T>(cap: nat, left: Option<seq<T>>, right: Option<seq<T>>): seq<T> {
    LastN(Items(left) + Items(right), cap)
  }

  /** Feeding deltas one by one. */
  function FoldBounded<T>(cap: nat, log: seq<T>, deltas: seq<seq<T>>): seq<T>
    decreases |deltas|
  {
    if deltas == [] then log
    else FoldBounded(cap, BoundedAdd(cap, Some(log), Some(deltas[0])), deltas[1..])
  }

  /** Trimming early never changes what a later trim keeps. */
  lemma LastNAbsorbs<T>(history: seq<T>, delta: seq<T>, cap: nat)
    ensures LastN(LastN(history, cap) + delta, cap) == LastN(history + delta, cap)
  {
    var trimmed := LastN(history, cap);
    if |history| > cap {
      assert trimmed + delta == (history + delta)[|history| - cap..];
    }
  }

  lemma {:induction false} FoldBoundedFrom<T>(cap: nat, history: seq<T>, deltas: seq<seq<T>>)
    ensures FoldBounded(cap, LastN(history, cap), deltas) == LastN(history + Flatten(deltas), cap)
    decreases |deltas|
  {
    hide LastN;
    if deltas == [] {
      assert history + Flatten(deltas) == history;
    } else {
      LastNAbsorbs(history, deltas[0], cap);
      FoldBoundedFrom(cap, history + deltas[0], deltas[1..]);
      assert history + deltas[0] + Flatten(deltas[1..]) == history + Flatten(deltas);
    }
  }

  /** A log that starts empty holds, after any deltas, the last `cap` entries of the whole history. */
  lemma BoundedLogKeepsNewest<T>(cap: nat, deltas: seq<seq<T>>)
    ensures FoldBounded(cap, [], deltas) == LastN(Flatten(deltas), cap)
  {
    FoldBoundedFrom(cap, [], deltas);
    assert [] + Flatten(deltas) == Flatten(deltas);
  }

  // ---------- merge ----------

  /** What `merge` leaves in one channel that the delta mentions: a missing (or null) old value,
      a null new value or an undeclared channel all bypass the reducer. */
  function MergeChannel<V>(existing: Option<V>, value: Option<V>, reducer: Option<(V, V) -> V>): Option<V> {
    if reducer.None? || existing.None? || value.None? then value
    else Some(reducer.value(existing.value, value.value))
  }

  /** The entry of a dictionary whose values may be null: missing and null read alike. */
  function Read<V>(state: map<string, Option<V>>, key: string): Option<V> {
    if key in state then state[key] else None
  }

  function ReducerOf<V>(reducers: map<string, (V, V) -> V>, key: string): Option<(V, V) -> V> {
    if key in reducers then Some(reducers[key]) else None
  }

  /** The dictionary `merge` returns, key by key. */
  function Merged<V>(state: map<string, Option<V>>, delta: map<string, Option<V>>,
                     reducers: map<string, (V, V) -> V>): map<string, Option<V>>
  {
    map key | key in state.Keys + delta.Keys ::
      if key in delta then MergeChannel(Read(state, key), delta[key], ReducerOf(reducers, key))
      else state[key]
  }

  /** The loop over the delta, whatever order its keys come in. */
  method Merge<V>(state: map<string, Option<V>>, delta: map<string, Option<V>>,
                  reducers: map<string, (V, V) -> V>)
    returns (out: map<string, Option<V>>)
    ensures out == Merged(state, delta, reducers)
    ensures out.Keys == state.Keys + delta.Keys
    ensures forall key :: key in state && key !in delta ==> out[key] == state[key]
    ensures forall key :: key in delta && (key !in reducers || delta[key].None? || key !in state || state[key].None?) ==>
      out[key] == delta[key]
    ensures forall key :: key in delta && key in reducers && delta[key].Some? && key in state && state[key].Some? ==>
      out[key] == Some(reducers[key](state[key].value, delta[key].value))
  {
    out := state;
    var todo := delta.Keys;
    while todo != {}
      invariant todo <= delta.Keys
      invariant out.Keys == state.Keys + (delta.Keys - todo)
      invariant forall key :: key in delta.Keys - todo ==>
        out[key] == MergeChannel(Read(state, key), delta[key], ReducerOf(reducers, key))
      invariant forall key :: key in out && (key !in delta || key in todo) ==> key in state && out[key] == state[key]
      decreases todo
    {
      var key :| key in todo;
      out := out[key := MergeChannel(Read(out, key), delta[key], ReducerOf(reducers, key))];
      todo := todo - {key};
    }
  }

  /** The state after a sequence of merges. */
  function MergedAll<V>(state: map<string, Option<V>>, deltas: seq<map<string, Option<V>>>,
                        reducers: map<string, (V, V) -> V>): map<string, Option<V>>
    decreases |deltas|
  {
    if deltas == [] then state
    else MergedAll(Merged(state, deltas[0], reducers), deltas[1..], reducers)
  }

  /** What the last delta that mentions a key writes there. */
  function LastWritten<V>(deltas: seq<map<string, Option<V>>>, key: string): Option<Option<V>> {
    if deltas == [] then None
    else if key in deltas[|deltas| - 1] then Some(deltas[|deltas| - 1][key])
    else LastWritten(deltas[..|deltas| - 1], key)
  }

  /** It is a value some delta writes there and no later one mentions. */
  lemma {:induction false} LastWrittenIff<V>(deltas: seq<map<string, Option<V>>>, key: string, value: Option<V>)
    ensures LastWritten(deltas, key) == Some(value) <==>
      exists i :: 0 <= i < |deltas| && key in deltas[i] && deltas[i][key] == value
                  && forall j :: i < j < |deltas| ==> key !in deltas[j]
    ensures LastWritten(deltas, key) == None <==> forall i :: 0 <= i < |deltas| ==> key !in deltas[i]
  {
    if deltas != [] {
      var init, last := deltas[..|deltas| - 1], deltas[|deltas| - 1];
      LastWrittenIff(init, key, value);
      assert forall i :: 0 <= i < |init| ==> init[i] == deltas[i];
      assert last == deltas[|deltas| - 1];
    }
  }

  lemma {:induction false} MergedAllLast<V>(state: map<string, Option<V>>, deltas: seq<map<string, Option<V>>>,
                                            reducers: map<string, (V, V) -> V>)
    requires deltas != []
    ensures MergedAll(state, deltas, reducers)
         == Merged(MergedAll(state, deltas[..|deltas| - 1], reducers), deltas[|deltas| - 1], reducers)
    decreases |deltas|
  {
    if |deltas| > 1 {
      var rest := deltas[1..];
      MergedAllLast(Merged(state, deltas[0], reducers), rest, reducers);
      assert deltas[..|deltas| - 1][1..] == rest[..|rest| - 1];
    }
  }

  /** A channel without a reducer reads what the last delta that mentions it wrote, null included. */
  lemma {:induction false} PlainChannelIsLastWritten<V>(
    state: map<string, Option<V>>, deltas: seq<map<string, Option<V>>>, reducers: map<string, (V, V) -> V>, key: string)
    requires key !in reducers
    ensures Read(MergedAll(state, deltas, reducers), key)
         == match LastWritten(deltas, key) case None => Read(state, key) case Some(value) => value
    decreases |deltas|
  {
    if deltas != [] {
      MergedAllLast(state, deltas, reducers);
      PlainChannelIsLastWritten(state, deltas[..|deltas| - 1], reducers, key);
    }
  }

  /** What each delta contributes to one list channel. */
  function Contributions<T>(deltas: seq<map<string, Option<seq<T>>>>, key: string): seq<seq<T>> {
    if deltas == [] then []
    else (if key in deltas[0] then [Items(deltas[0][key])] else []) + Contributions(deltas[1..], key)
  }

  /** Over a whole run of merges a bounded channel that is present and that no delta nulls out
      follows the fold of its reducer; other channels never disturb it. */
  lemma {:induction false} BoundedChannelOverRun<T(!new)>(
    cap: nat, key: string, state: map<string, Option<seq<T>>>,
    deltas: seq<map<string, Option<seq<T>>>>, reducers: map<string, (seq<T>, seq<T>) -> seq<T>>)
    requires key in reducers && forall l, r :: reducers[key](l, r) == LastN(l + r, cap)
    requires key in state && state[key].Some?
    requires forall i :: 0 <= i < |deltas| && key in deltas[i] ==> deltas[i][key].Some?
    ensures Read(MergedAll(state, deltas, reducers), key)
         == Some(FoldBounded(cap, state[key].value, Contributions(deltas, key)))
    decreases |deltas|
  {
    if deltas != [] {
      var next := Merged(state, deltas[0], reducers);
      BoundedChannelOverRun(cap, key, next, deltas[1..], reducers);
      if key in deltas[0] {
        assert Contributions(deltas, key)[1..] == Contributions(deltas[1..], key);
        assert next[key] == Some(BoundedAdd(cap, state[key], deltas[0][key]));
      } else {
        assert Contributions(deltas, key) == Contributions(deltas[1..], key);
      }
    }
  }

  /** The runs' initial states start the bounded logs at `[]`; then the log is exactly the newest entries. */
  lemma InitializedLogKeepsNewest<T(!new)>(
    cap: nat, key: string, state: map<string, Option<seq<T>>>,
    deltas: seq<map<string, Option<seq<T>>>>, reducers: map<string, (seq<T>, seq<T>) -> seq<T>>)
    requires key in reducers && forall l, r :: reducers[key](l, r) == LastN(l + r, cap)
    requires key in state && state[key] == Some([])
    requires forall i :: 0 <= i < |deltas| && key in deltas[i] ==> deltas[i][key].Some?
    ensures Read(MergedAll(state, deltas, reducers), key)
         == Some(LastN(Flatten(Contributions(deltas, key)), cap))
  {
    BoundedChannelOverRun(cap, key, state, deltas, reducers);
    BoundedLogKeepsNewest(cap, Contributions(deltas, key));
  }

  /** On a channel that was never initialised the first delta bypasses the reducer: the log obeys
      its cap iff that delta already did, and any later delta restores the cap. */
  lemma UninitializedLogObeysCapIff<T(!new)>(
    cap: nat, key: string, state: map<string, Option<seq<T>>>, first: seq<T>, second: seq<T>,
    reducers: map<string, (seq<T>, seq<T>) -> seq<T>>)
    requires key in reducers && forall l, r :: reducers[key](l, r) == LastN(l + r, cap)
    requires Read(state, key) == None
    ensures Read(Merged(state, map[key := Some(first)], reducers), key) == Some(LastN(first, cap)) <==> |first| <= cap
    ensures Read(MergedAll(state, [map[key := Some(first)], map[key := Some(second)]], reducers), key)
         == Some(LastN(first + second, cap))
  {
    var one := map[key := Some(first)];
    var two := map[key := Some(second)];
    assert Merged(state, one, reducers)[key] == Some(first);
    assert [one, two][1..] == [two];
    BoundedChannelOverRun(cap, key, Merged(state, one, reducers), [two], reducers);
    assert Contributions([two], key) == [second] + Contributions([two][1..], key);
    assert FoldBounded(cap, first, [second]) == BoundedAdd(cap, Some(first), Some(second));
  }

  // ---------- merge_work_packages ----------

  /** A slice of the spec: its id and everything else it carries. */
  datatype Keyed<+P> = Keyed(id: string, payload: P)

  function Ids<P>(s: seq<Keyed<P>>): seq<string> {
    seq(|s|, i requires 0 <= i < |s| => s[i].id)
  }

  /** Distinct ids in the order they first appear. */
  function FirstSeen(ids: seq<string>): (r: seq<string>) {
    if ids == [] then []
    else
      var init := FirstSeen(ids[..|ids| - 1]);
      var last := ids[|ids| - 1];
      if last in init then init else init + [last]
  }

  /** The last slice carrying an id. */
  function LastWrite<P>(s: seq<Keyed<P>>, id: string): (r: Keyed<P>)
    requires id in Ids(s)
  {
    var last := s[|s| - 1];
    assert Ids(s) == Ids(s[..|s| - 1]) + [last.id];
    if last.id == id then last else LastWrite(s[..|s| - 1], id)
  }

  lemma {:induction false} FirstSeenFacts(ids: seq<string>)
    ensures Distinct(FirstSeen(ids))
    ensures forall id :: id in FirstSeen(ids) <==> id in ids
  {
    if ids != [] {
      FirstSeenFacts(ids[..|ids| - 1]);
      assert ids == ids[..|ids| - 1] + [ids[|ids| - 1]];
    }
  }

  /** One slice per id: ids in first-seen order, each with its last written slice. */
  function MergedPackages<P>(s: seq<Keyed<P>>): (r: seq<Keyed<P>>) {
    FirstSeenFacts(Ids(s));
    var order := FirstSeen(Ids(s));
    seq(|order|, i requires 0 <= i < |order| => LastWrite(s, order[i]))
  }

  lemma {:induction false} LastWriteId<P>(s: seq<Keyed<P>>, id: string)
    requires id in Ids(s)
    ensures LastWrite(s, id).id == id
    ensures LastWrite(s, id) in s
  {
    if s[|s| - 1].id != id {
      assert Ids(s) == Ids(s[..|s| - 1]) + [s[|s| - 1].id];
      LastWriteId(s[..|s| - 1], id);
    }
  }

  lemma MergedPackagesIds<P>(s: seq<Keyed<P>>)
    ensures Ids(MergedPackages(s)) == FirstSeen(Ids(s))
  {
    FirstSeenFacts(Ids(s));
    forall i | 0 <= i < |FirstSeen(Ids(s))|
      ensures MergedPackages(s)[i].id == FirstSeen(Ids(s))[i]
    {
      LastWriteId(s, FirstSeen(Ids(s))[i]);
    }
  }

  lemma {:induction false} LastWriteConcat<P>(a: seq<Keyed<P>>, b: seq<Keyed<P>>, id: string)
    requires id in Ids(a + b)
    ensures id in Ids(b) ==> LastWrite(a + b, id) == LastWrite(b, id)
    ensures id !in Ids(b) ==> id in Ids(a) && LastWrite(a + b, id) == LastWrite(a, id)
  {
    assert Ids(a + b) == Ids(a) + Ids(b);
    if b == [] {
      assert a + b == a;
    } else {
      var init := b[..|b| - 1];
      assert (a + b)[..|a + b| - 1] == a + init;
      assert Ids(b) == Ids(init) + [b[|b| - 1].id];
      assert Ids(a + b) == Ids(a + init) + [b[|b| - 1].id];
      if b[|b| - 1].id != id {
        LastWriteConcat(a, init, id);
      }
    }
  }

  lemma {:induction false} LastWriteUnique<P>(s: seq<Keyed<P>>, i: nat)
    requires i < |s| && Distinct(Ids(s))
    ensures Ids(s)[i] in Ids(s) && LastWrite(s, Ids(s)[i]) == s[i]
  {
    if i < |s| - 1 {
      assert Ids(s)[i] != Ids(s)[|s| - 1];
      assert Ids(s[..|s| - 1]) == Ids(s)[..|s| - 1];
      LastWriteUnique(s[..|s| - 1], i);
    }
  }

  lemma LastWriteMerged<P>(s: seq<Keyed<P>>, id: string)
    requires id in Ids(s)
    ensures id in Ids(MergedPackages(s)) && LastWrite(MergedPackages(s), id) == LastWrite(s, id)
  {
    FirstSeenFacts(Ids(s));
    MergedPackagesIds(s);
    var i :| 0 <= i < |FirstSeen(Ids(s))| && FirstSeen(Ids(s))[i] == id;
    LastWriteUnique(MergedPackages(s), i);
    LastWriteId(s, id);
  }

  lemma {:induction false} FirstSeenLeft(a: seq<string>, b: seq<string>)
    ensures FirstSeen(FirstSeen(a) + b) == FirstSeen(a + b)
    decreases |b|
  {
    hide FirstSeen, Distinct;
    FirstSeenFacts(a);
    if b == [] {
      FirstSeenDistinct(FirstSeen(a));
      assert FirstSeen(a) + b == FirstSeen(a) && a + b == a;
    } else {
      var init, last := b[..|b| - 1], b[|b| - 1];
      FirstSeenLeft(a, init);
      FirstSeenOne(FirstSeen(a) + init, last);
      FirstSeenOne(a + init, last);
      assert FirstSeen(a) + b == FirstSeen(a) + init + [last] && a + b == a + init + [last];
    }
  }

  lemma {:induction false} FirstSeenRight(a: seq<string>, b: seq<string>)
    ensures FirstSeen(a + FirstSeen(b)) == FirstSeen(a + b)
    decreases |b|
  {
    if b == [] {
      assert a + FirstSeen(b) == a && a + b == a;
    } else {
      hide FirstSeen;
      var init, last := b[..|b| - 1], b[|b| - 1];
      assert b == init + [last] && a + b == a + init + [last];
      FirstSeenRight(a, init);
      FirstSeenOne(init, last);
      FirstSeenOne(a + init, last);
      FirstSeenFacts(init);
      FirstSeenFacts(a + init);
      if last !in FirstSeen(init) {
        FirstSeenOne(a + FirstSeen(init), last);
        assert a + (FirstSeen(init) + [last]) == a + FirstSeen(init) + [last];
      }
    }
  }

  lemma {:induction false} FirstSeenDistinct(ids: seq<string>)
    requires Distinct(ids)
    ensures FirstSeen(ids) == ids
  {
    if ids != [] {
      FirstSeenDistinct(ids[..|ids| - 1]);
      assert ids == ids[..|ids| - 1] + [ids[|ids| - 1]];
    }
  }

  /** Two lists with the same merged ids and the same last writes merge to the same packages. */
  lemma MergedPackagesExt<P>(s: seq<Keyed<P>>, t: seq<Keyed<P>>)
    requires FirstSeen(Ids(s)) == FirstSeen(Ids(t))
    requires forall id :: id in Ids(s) && id in Ids(t) ==> LastWrite(s, id) == LastWrite(t, id)
    ensures MergedPackages(s) == MergedPackages(t)
  {
    FirstSeenFacts(Ids(s));
    FirstSeenFacts(Ids(t));
  }

  /** Merging part of the history first changes nothing: the batch meaning of the reducer. */
  lemma PackagesMergeIncrementally<P>(a: seq<Keyed<P>>, b: seq<Keyed<P>>)
    ensures MergedPackages(MergedPackages(a) + b) == MergedPackages(a + b)
    ensures MergedPackages(a + MergedPackages(b)) == MergedPackages(a + b)
  {
    var left, right := MergedPackages(a) + b, a + MergedPackages(b);
    MergedPackagesIds(a);
    MergedPackagesIds(b);
    assert Ids(left) == FirstSeen(Ids(a)) + Ids(b);
    assert Ids(right) == Ids(a) + FirstSeen(Ids(b));
    assert Ids(a + b) == Ids(a) + Ids(b);
    FirstSeenLeft(Ids(a), Ids(b));
    FirstSeenRight(Ids(a), Ids(b));
    FirstSeenFacts(Ids(a));
    FirstSeenFacts(Ids(b));
    forall id | id in Ids(a + b)
      ensures id in Ids(left) && LastWrite(left, id) == LastWrite(a + b, id)
      ensures id in Ids(right) && LastWrite(right, id) == LastWrite(a + b, id)
    {
      LastWriteConcat(a, b, id);
      LastWriteConcat(MergedPackages(a), b, id);
      LastWriteConcat(a, MergedPackages(b), id);
      if id in Ids(a) { LastWriteMerged(a, id); }
      if id in Ids(b) { LastWriteMerged(b, id); }
    }
    MergedPackagesExt(left, a + b);
    MergedPackagesExt(right, a + b);
  }

  /** The reducer is associative. */
  lemma PackagesMergeAssociative<P>(a: seq<Keyed<P>>, b: seq<Keyed<P>>, c: seq<Keyed<P>>)
    ensures MergedPackages(MergedPackages(a + b) + c) == MergedPackages(a + MergedPackages(b + c))
  {
    PackagesMergeIncrementally(a + b, c);
    PackagesMergeIncrementally(a, b + c);
    assert a + b + c == a + (b + c);
  }

  /** A merged spec has unique ids, holds only slices that were written, and merging it again
      (even with itself) leaves it alone. */
  lemma PackagesMergeIdempotent<P>(a: seq<Keyed<P>>)
    ensures Distinct(Ids(MergedPackages(a)))
    ensures forall s :: s in MergedPackages(a) ==> s in a
    ensures MergedPackages(MergedPackages(a)) == MergedPackages(a)
    ensures MergedPackages(MergedPackages(a) + MergedPackages(a)) == MergedPackages(a)
  {
    var m := MergedPackages(a);
    MergedPackagesIds(a);
    FirstSeenFacts(Ids(a));
    forall i | 0 <= i < |m| ensures m[i] in a {
      LastWriteId(a, FirstSeen(Ids(a))[i]);
    }
    PackagesMergeIncrementally(a, []);
    assert m + [] == m && a + [] == a;
    MergeWithItself(m);
  }

  lemma MergeWithItself<P>(m: seq<Keyed<P>>)
    ensures MergedPackages(m + m) == MergedPackages(m)
  {
    assert Ids(m + m) == Ids(m) + Ids(m);
    FirstSeenAbsorbs(Ids(m), Ids(m));
    forall id | id in Ids(m + m) && id in Ids(m)
      ensures LastWrite(m + m, id) == LastWrite(m, id)
    {
      LastWriteConcat(m, m, id);
    }
    MergedPackagesExt(m + m, m);
  }

  lemma {:induction false} FirstSeenAbsorbs(a: seq<string>, b: seq<string>)
    requires forall id :: id in b ==> id in a
    ensures FirstSeen(a + b) == FirstSeen(a)
    decreases |b|
  {
    if b == [] {
      assert a + b == a;
    } else {
      assert (a + b)[..|a + b| - 1] == a + b[..|b| - 1];
      FirstSeenAbsorbs(a, b[..|b| - 1]);
      FirstSeenFacts(a);
    }
  }

  /** A dictionary in insertion order after writing the slices of `s` into it. */
  ghost predicate Written<P>(s: seq<Keyed<P>>, keys: seq<string>, byId: map<string, Keyed<P>>) {
    && keys == FirstSeen(Ids(s))
    && (forall id :: id in byId <==> id in Ids(s))
    && (forall id :: id in Ids(s) ==> byId[id] == LastWrite(s, id))
  }

  lemma FirstSeenOne(ids: seq<string>, id: string)
    ensures FirstSeen(ids + [id]) == if id in FirstSeen(ids) then FirstSeen(ids) else FirstSeen(ids) + [id]
  {
    assert (ids + [id])[..|ids + [id]| - 1] == ids;
  }

  lemma LastWriteOne<P>(s: seq<Keyed<P>>, next: Keyed<P>, id: string)
    requires id in Ids(s + [next])
    ensures id != next.id ==> id in Ids(s)
    ensures LastWrite(s + [next], id) == if id == next.id then next else LastWrite(s, id)
  {
    var t := s + [next];
    assert t[..|t| - 1] == s && Ids(t) == Ids(s) + [next.id];
  }

  lemma WriteOne<P>(s: seq<Keyed<P>>, keys: seq<string>, byId: map<string, Keyed<P>>, next: Keyed<P>)
    requires Written(s, keys, byId)
    ensures Written(s + [next], if next.id in byId then keys else keys + [next.id], byId[next.id := next])
  {
    hide LastWrite, FirstSeen;
    assert Ids(s + [next]) == Ids(s) + [next.id];
    FirstSeenFacts(Ids(s));
    FirstSeenOne(Ids(s), next.id);
    forall id | id in Ids(s + [next]) ensures LastWrite(s + [next], id) == byId[next.id := next][id] {
      LastWriteOne(s, next, id);
    }
  }

  lemma WrittenNothing<P>()
    ensures Written<P>([], [], map[])
  {}

  /** The dictionary's values in insertion order are the merged packages. */
  lemma WrittenGives<P>(s: seq<Keyed<P>>, keys: seq<string>, byId: map<string, Keyed<P>>)
    requires Written(s, keys, byId)
    ensures forall key :: key in keys ==> key in byId
    ensures |MergedPackages(s)| == |keys| && forall i :: 0 <= i < |keys| ==> MergedPackages(s)[i] == byId[keys[i]]
  {
    FirstSeenFacts(Ids(s));
  }

  /** The dictionary loop: insertion order of the keys, last value written. */
  method MergeWorkPackages<P>(left: Option<seq<Keyed<P>>>, right: Option<seq<Keyed<P>>>)
    returns (out: seq<Keyed<P>>)
    ensures out == MergedPackages(Items(left) + Items(right))
  {
    hide Written, MergedPackages, Items;
    var all := Items(left) + Items(right);
    var keys: seq<string> := [];
    var byId: map<string, Keyed<P>> := map[];
    WrittenNothing<P>();
    for n := 0 to |all|
      invariant Written(all[..n], keys, byId)
    {
      WriteOne(all[..n], keys, byId, all[n]);
      assert all[..n + 1] == all[..n] + [all[n]];
      if all[n].id !in byId {
        keys := keys + [all[n].id];
      }
      byId := byId[all[n].id := all[n]];
    }
    assert all[..|all|] == all;
    WrittenGives(all, keys, byId);
    out := seq(|keys|, i requires 0 <= i < |keys| && keys[i] in byId => byId[keys[i]]);
  }
}
