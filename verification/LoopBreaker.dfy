/** The hook that denies a tool call when the recent calls repeat a pattern of three. */
module LoopBreaker {
  import opened StateReducers

  datatype Trigram = Trigram(first: string, second: string, third: string)

  function TrigramAt(calls: seq<string>, i: nat): Trigram
    requires i + 2 < |calls|
  {
    Trigram(calls[i], calls[i + 1], calls[i + 2])
  }

  /** How often a trigram starts at one of the first `n` positions. */
  function Occurrences(calls: seq<string>, tri: Trigram, n: nat): nat
    requires n == 0 || n + 2 <= |calls|
  {
    if n == 0 then 0
    else Occurrences(calls, tri, n - 1) + (if TrigramAt(calls, n - 1) == tri then 1 else 0)
  }

  /** How often a trigram occurs. */
  function Count(calls: seq<string>, tri: Trigram): nat {
    if |calls| < 3 then 0 else Occurrences(calls, tri, |calls| - 2)
  }

  /** Some trigram occurs at least `minRepeats` times; below two repeats the detector is off. */
  ghost predicate Repeating(calls: seq<string>, minRepeats: int) {
    && |calls| >= 3 && minRepeats >= 2
    && exists tri :: Count(calls, tri) >= minRepeats
  }

  lemma {:induction false} OccurrencesGrow(calls: seq<string>, tri: Trigram, m: nat, n: nat)
    requires m <= n && (n == 0 || n + 2 <= |calls|)
    ensures Occurrences(calls, tri, m) <= Occurrences(calls, tri, n)
  {
    if m < n {
      OccurrencesGrow(calls, tri, m, n - 1);
    }
  }

  method DetectRepeatingTriplet(calls: seq<string>, minRepeats: int) returns (found: bool)
    ensures found <==> Repeating(calls, minRepeats)
  {
    if |calls| < 3 || minRepeats < 2 {
      return false;
    }
    var counts: map<Trigram, nat> := map[];
    for i := 0 to |calls| - 2
      invariant forall tri :: Occurrences(calls, tri, i) == if tri in counts then counts[tri] else 0
      invariant forall tri :: tri in counts ==> counts[tri] < minRepeats
    {
      var tri := TrigramAt(calls, i);
      var count := (if tri in counts then counts[tri] else 0) + 1;
      counts := counts[tri := count];
      if count >= minRepeats {
        assert Occurrences(calls, tri, i + 1) == count;
        OccurrencesGrow(calls, tri, i + 1, |calls| - 2);
        assert Count(calls, tri) >= minRepeats;
        return true;
      }
    }
    assert forall tri :: Count(calls, tri) == Occurrences(calls, tri, |calls| - 2);
    found := false;
  }

  /** The closure `make_loop_breaker` returns, with its private history. */
  class Hook {
    const window: nat
    const minRepeats: int
    var history: seq<string>
    /** Every call seen so far. */
    ghost var calls: seq<string>

    ghost predicate Valid()
      reads this
    {
      history == LastN(calls, window)
    }

    constructor (window: nat := 8, minRepeats: int := 3)
      ensures Valid() && calls == []
      ensures this.window == window && this.minRepeats == minRepeats
    {
      this.window, this.minRepeats := window, minRepeats;
      history, calls := [], [];
    }

    /** Denies iff the last `window` calls, this one included, repeat a trigram often enough. */
    method PreToolUse(call: string) returns (denied: bool)
      requires Valid()
      modifies this
      ensures Valid() && calls == old(calls) + [call]
      ensures denied <==> Repeating(LastN(calls, window), minRepeats)
    {
      LastNAbsorbs(calls, [call], window);
      calls := calls + [call];
      history := history + [call];
      if |history| > window {
        history := history[|history| - window..];
      }
      denied := DetectRepeatingTriplet(history, minRepeats);
    }
  }

  // ---------- What the threshold means for periodic agents ----------

  /** The first `n` calls of a stream. */
  function Calls(stream: nat -> string, n: nat): seq<string> {
    seq(n, i requires 0 <= i < n => stream(i))
  }

  ghost predicate Periodic(stream: nat -> string, p: nat) {
    forall i: nat :: stream(i + p) == stream(i)
  }

  /** Hits at n-1, n-1-p, ..., n-1-p(r-1) are r occurrences. */
  lemma {:induction false} OccurrencesAtLeast(calls: seq<string>, tri: Trigram, n: nat, p: nat, r: nat)
    requires p >= 1 && n + 2 <= |calls| && r >= 1 && 1 + p * (r - 1) <= n
    requires forall i: nat :: p <= i < n && TrigramAt(calls, i) == tri ==> TrigramAt(calls, i - p) == tri
    requires TrigramAt(calls, n - 1) == tri
    ensures Occurrences(calls, tri, n) >= r
    decreases r
  {
    if r > 1 {
      assert p * (r - 1) == p * (r - 2) + p;
      assert p * (r - 2) >= 0;
      var m := n - p;
      assert TrigramAt(calls, n - 1 - p) == tri;
      OccurrencesAtLeast(calls, tri, m, p, r - 1);
      OccurrencesGrow(calls, tri, m, n - 1);
    }
  }

  /** What the hook looks at after `n` calls of a stream. */
  function Recent(stream: nat -> string, n: nat, window: nat): seq<string> {
    LastN(Calls(stream, n), window)
  }

  lemma RecentIsStream(stream: nat -> string, n: nat, window: nat)
    ensures |Recent(stream, n, window)| == if n > window then window else n
    ensures forall i :: 0 <= i < |Recent(stream, n, window)| ==>
      Recent(stream, n, window)[i] == stream(n - |Recent(stream, n, window)| + i)
  {}

  lemma RecentIsPeriodic(stream: nat -> string, p: nat, n: nat, window: nat)
    requires Periodic(stream, p)
    ensures forall i :: p <= i < |Recent(stream, n, window)| ==>
      Recent(stream, n, window)[i - p] == Recent(stream, n, window)[i]
  {
    var recent := Recent(stream, n, window);
    RecentIsStream(stream, n, window);
    forall i | p <= i < |recent| ensures recent[i - p] == recent[i] {
      var at: nat := n - |recent| + (i - p);
      assert stream(at + p) == stream(at);
    }
  }

  /** An agent that loops with period p is denied from call 3 + p(r-1) on, as long as the
      window can hold that many calls. */
  lemma LoopingAgentIsDenied(stream: nat -> string, p: nat, r: nat, window: nat, n: nat)
    requires p >= 1 && r >= 2 && Periodic(stream, p)
    requires 3 + p * (r - 1) <= window && 3 + p * (r - 1) <= n
    ensures Repeating(Recent(stream, n, window), r)
  {
    RecentIsStream(stream, n, window);
    RecentIsPeriodic(stream, p, n, window);
    PeriodicCallsRepeat(Recent(stream, n, window), p, r);
  }

  lemma PeriodicCallsRepeat(calls: seq<string>, p: nat, r: nat)
    requires p >= 1 && r >= 2 && 3 + p * (r - 1) <= |calls|
    requires forall i :: p <= i < |calls| ==> calls[i - p] == calls[i]
    ensures Repeating(calls, r)
  {
    assert p * (r - 1) >= 1;
    var n := |calls| - 2;
    var tri := TrigramAt(calls, n - 1);
    forall i: nat | p <= i < n && TrigramAt(calls, i) == tri ensures TrigramAt(calls, i - p) == tri {
      assert calls[i + 1 - p] == calls[i + 1] && calls[i + 2 - p] == calls[i + 2];
    }
    OccurrencesAtLeast(calls, tri, n, p, r);
    assert Count(calls, tri) >= r;
  }

  /** A cycle of p distinct calls: any p consecutive calls are all different. */
  ghost predicate DistinctCycle(stream: nat -> string, p: nat) {
    forall i: nat, j: nat :: i < j < i + p ==> stream(i) != stream(j)
  }

  /** Occurrences at least p apart: at most one in any p consecutive positions. */
  ghost predicate Sparse(calls: seq<string>, tri: Trigram, p: nat) {
    forall i: nat, j: nat :: i < j && j + 2 < |calls| && TrigramAt(calls, i) == tri && TrigramAt(calls, j) == tri
      ==> j - i >= p
  }

  lemma {:induction false} AtMostOneNearby(calls: seq<string>, tri: Trigram, p: nat, a: nat, n: nat)
    requires Sparse(calls, tri, p) && a <= n <= a + p && (n == 0 || n + 2 <= |calls|)
    ensures Occurrences(calls, tri, n) <= Occurrences(calls, tri, a) + 1
    ensures Occurrences(calls, tri, n) > Occurrences(calls, tri, a)
        ==> exists i: nat :: a <= i < n && TrigramAt(calls, i) == tri
    decreases n
  {
    if a < n {
      AtMostOneNearby(calls, tri, p, a, n - 1);
    }
  }

  lemma {:induction false} OccurrencesAtMost(calls: seq<string>, tri: Trigram, p: nat, n: nat, k: nat)
    requires p >= 1 && Sparse(calls, tri, p) && (n == 0 || n + 2 <= |calls|) && n <= p * k
    ensures Occurrences(calls, tri, n) <= k
    decreases k
  {
    if n > 0 {
      assert k >= 1 && p * k == p * (k - 1) + p;
      var a := if n > p then n - p else 0;
      assert p * (k - 1) >= 0;
      OccurrencesAtMost(calls, tri, p, a, k - 1);
      AtMostOneNearby(calls, tri, p, a, n);
    }
  }

  lemma RecentIsSparse(stream: nat -> string, p: nat, n: nat, window: nat, tri: Trigram)
    requires p >= 1 && DistinctCycle(stream, p)
    ensures Sparse(Recent(stream, n, window), tri, p)
  {
    var recent := Recent(stream, n, window);
    RecentIsStream(stream, n, window);
    var before: nat := n - |recent|;
    forall i: nat, j: nat | i < j && j + 2 < |recent| && TrigramAt(recent, i) == tri && TrigramAt(recent, j) == tri
      ensures j - i >= p
    {
      assert recent[i] == recent[j];
      assert stream(before + i) == stream(before + j);
    }
  }

  /** With fewer than 3 + p(r-1) calls in view, a cycle of p distinct calls is not denied. */
  lemma LongCycleIsNotDenied(stream: nat -> string, p: nat, r: nat, window: nat, n: nat)
    requires p >= 1 && r >= 2 && DistinctCycle(stream, p)
    requires window < 3 + p * (r - 1) || n < 3 + p * (r - 1)
    ensures !Repeating(Recent(stream, n, window), r)
  {
    var recent := Recent(stream, n, window);
    RecentIsStream(stream, n, window);
    forall tri ensures Count(recent, tri) < r {
      if |recent| >= 3 {
        RecentIsSparse(stream, p, n, window, tri);
        OccurrencesAtMost(recent, tri, p, |recent| - 2, r - 1);
      }
    }
  }

  /** The exact threshold: an agent cycling through p distinct calls is denied at call n iff both
      the window and n reach 3 + p(r-1). */
  lemma CycleDeniedIff(stream: nat -> string, p: nat, r: nat, window: nat, n: nat)
    requires p >= 1 && r >= 2 && Periodic(stream, p) && DistinctCycle(stream, p)
    ensures Repeating(Recent(stream, n, window), r) <==> 3 + p * (r - 1) <= window && 3 + p * (r - 1) <= n
  {
    if 3 + p * (r - 1) <= window && 3 + p * (r - 1) <= n {
      LoopingAgentIsDenied(stream, p, r, window, n);
    } else {
      LongCycleIsNotDenied(stream, p, r, window, n);
    }
  }
}
