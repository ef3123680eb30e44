/** Issue comments: the deduplicating reducer and the marker filter. */
module IssueComments {
  import opened Common

  /** REST ids are numbers, GraphQL ids are text; 0, "" and a missing id all mean "no id". */
  datatype CommentId = NoId | NumericId(n: int) | TextId(text: string)

  datatype Comment = Comment(id: CommentId, author: string, body: Option<string>)

  // ---------- Keys ----------

  predicate IsSpace(c: char) {
    var n := c as int;
    || 9 <= n <= 13 || 28 <= n <= 32 || n == 0x85 || n == 0xA0 || n == 0x1680
    || 0x2000 <= n <= 0x200A || n == 0x2028 || n == 0x2029 || n == 0x202F || n == 0x205F || n == 0x3000
  }

  function StripLeft(s: string): string {
    if s != "" && IsSpace(s[0]) then StripLeft(s[1..]) else s
  }

  function StripRight(s: string): string {
    if s != "" && IsSpace(s[|s| - 1]) then StripRight(s[..|s| - 1]) else s
  }

  function Strip(s: string): string {
    StripRight(StripLeft(s))
  }

  function Digits(n: nat): string {
    if n < 10 then ["0123456789"[n]] else Digits(n / 10) + ["0123456789"[n % 10]]
  }

  function IdKey(c: Comment): string {
    match c.id
    case NoId => ""
    case NumericId(n) => if n == 0 then "" else if n < 0 then "-" + Digits(-n) else Digits(n)
    case TextId(text) => Strip(text)
  }

  function BodyKey(c: Comment): string {
    Strip(c.body.GetOr(""))
  }

  predicate AllSpace(s: string) {
    forall c :: c in s ==> IsSpace(c)
  }

  lemma {:induction false} StripLeftMeans(s: string) returns (a: nat)
    ensures a <= |s| && StripLeft(s) == s[a..] && AllSpace(s[..a])
    ensures StripLeft(s) != "" ==> !IsSpace(StripLeft(s)[0])
  {
    hide IsSpace;
    a := 0;
    if s != "" && IsSpace(s[0]) {
      a := StripLeftMeans(s[1..]);
      assert s[..a + 1] == [s[0]] + s[1..][..a] && s[1..][a..] == s[a + 1..];
      a := a + 1;
    }
  }

  lemma {:induction false} StripRightMeans(s: string) returns (b: nat)
    ensures b <= |s| && StripRight(s) == s[..b] && AllSpace(s[b..])
    ensures StripRight(s) != "" ==> !IsSpace(StripRight(s)[|StripRight(s)| - 1])
  {
    hide IsSpace;
    b := |s|;
    if s != "" && IsSpace(s[|s| - 1]) {
      var n := |s| - 1;
      b := StripRightMeans(s[..n]);
      assert s[b..] == s[..n][b..] + [s[n]] && s[..n][..b] == s[..b];
    } else {
      assert s[..|s|] == s && s[|s|..] == "";
    }
  }

  /** Stripping takes off the space before and after, and all of it. */
  lemma StripMeans(s: string) returns (a: nat, b: nat)
    ensures a <= b <= |s| && Strip(s) == s[a..b] && AllSpace(s[..a]) && AllSpace(s[b..])
    ensures Strip(s) != "" ==> !IsSpace(Strip(s)[0]) && !IsSpace(Strip(s)[|Strip(s)| - 1])
  {
    hide IsSpace, StripLeft, StripRight, AllSpace;
    a := StripLeftMeans(s);
    var c := StripRightMeans(StripLeft(s));
    b := a + c;
    assert s[a..][..c] == s[a..b] && s[a..][c..] == s[b..];
    if Strip(s) != "" {
      assert StripLeft(s)[0] == Strip(s)[0];
    }
  }

  // ---------- Deduplication ----------

  /** Two comments count as the same when they share a non-empty id or a non-empty body. */
  predicate Same(c: Comment, d: Comment) {
    || (IdKey(c) != "" && IdKey(c) == IdKey(d))
    || (BodyKey(c) != "" && BodyKey(c) == BodyKey(d))
  }

  predicate Repeats(kept: seq<Comment>, c: Comment) {
    exists d | d in kept :: Same(d, c)
  }

  /** The batch meaning: keep a comment unless one kept before it is the same. */
  function Dedup(s: seq<Comment>): seq<Comment> {
    if s == [] then []
    else
      var kept := Dedup(s[..|s| - 1]);
      var last := s[|s| - 1];
      if Repeats(kept, last) then kept else kept + [last]
  }

  ghost predicate NoRepeats(s: seq<Comment>) {
    forall i, j :: 0 <= i < j < |s| ==> !Same(s[i], s[j])
  }

  /** The keys the reducer has seen are exactly those of the comments it kept. */
  ghost predicate SeenKeys(out: seq<Comment>, seenIds: set<string>, seenBodies: set<string>) {
    && (forall key :: key in seenIds <==> key != "" && exists d :: d in out && IdKey(d) == key)
    && (forall key :: key in seenBodies <==> key != "" && exists d :: d in out && BodyKey(d) == key)
  }

  lemma SeeOne(out: seq<Comment>, seenIds: set<string>, seenBodies: set<string>, c: Comment)
    requires SeenKeys(out, seenIds, seenBodies)
    ensures SeenKeys(out + [c],
              if IdKey(c) != "" then seenIds + {IdKey(c)} else seenIds,
              if BodyKey(c) != "" then seenBodies + {BodyKey(c)} else seenBodies)
    ensures Repeats(out, c) <==> IdKey(c) in seenIds || BodyKey(c) in seenBodies
    ensures "" !in seenIds && "" !in seenBodies
  {
    forall d | d in out + [c] ensures d in out || d == c {}
    assert c in out + [c];
    forall d | d in out ensures d in out + [c] {}
  }

  lemma DedupOne(s: seq<Comment>, n: nat)
    requires n < |s|
    ensures Dedup(s[..n + 1]) == if Repeats(Dedup(s[..n]), s[n]) then Dedup(s[..n]) else Dedup(s[..n]) + [s[n]]
  {
    assert s[..n + 1][..n] == s[..n];
  }

  /** One turn of the reducer's loop: a comment is kept, and its keys are seen, unless one was seen before. */
  method KeepOne(out: seq<Comment>, seenIds: set<string>, seenBodies: set<string>, c: Comment)
    returns (kept: seq<Comment>, ids: set<string>, bodies: set<string>)
    requires SeenKeys(out, seenIds, seenBodies)
    ensures kept == (if Repeats(out, c) then out else out + [c]) && SeenKeys(kept, ids, bodies)
  {
    SeeOne(out, seenIds, seenBodies, c);
    hide SeenKeys, Repeats;
    kept, ids, bodies := out, seenIds, seenBodies;
    var idKey, bodyKey := IdKey(c), BodyKey(c);
    if !(idKey != "" && idKey in seenIds) && !(bodyKey != "" && bodyKey in seenBodies) {
      if idKey != "" {
        ids := ids + {idKey};
      }
      if bodyKey != "" {
        bodies := bodies + {bodyKey};
      }
      kept := kept + [c];
    }
  }

  /** The reducer's loop over two lists that may be missing. */
  method MergeIssueComments(left: Option<seq<Comment>>, right: Option<seq<Comment>>) returns (out: seq<Comment>)
    ensures out == Dedup(Items(left) + Items(right))
  {
    var all := Items(left) + Items(right);
    var seenIds: set<string>, seenBodies: set<string> := {}, {};
    out := [];
    assert SeenKeys(out, seenIds, seenBodies);
    hide SeenKeys, Repeats;
    for n := 0 to |all|
      invariant out == Dedup(all[..n])
      invariant SeenKeys(out, seenIds, seenBodies)
    {
      DedupOne(all, n);
      out, seenIds, seenBodies := KeepOne(out, seenIds, seenBodies, all[n]);
    }
    assert all[..|all|] == all;
  }

  /** No two stored comments share a non-empty id or body; every comment received is stored or is
      the same as a stored one; nothing else is stored. */
  lemma {:induction false} DedupExact(s: seq<Comment>)
    ensures NoRepeats(Dedup(s))
    ensures forall c :: c in s ==> c in Dedup(s) || Repeats(Dedup(s), c)
    ensures forall c :: c in Dedup(s) ==> c in s
  {
    if s != [] {
      var init, last := s[..|s| - 1], s[|s| - 1];
      DedupExact(init);
      assert s == init + [last];
      forall c | c in init && Repeats(Dedup(init), c) ensures Repeats(Dedup(s), c) {
        var d :| d in Dedup(init) && Same(d, c);
        assert d in Dedup(s);
      }
      forall i | 0 <= i < |Dedup(init)| && !Repeats(Dedup(init), last) ensures !Same(Dedup(init)[i], last) {
        assert Dedup(init)[i] in Dedup(init);
      }
    }
  }

  /** Stored comments are never removed or reordered by later ones. */
  lemma {:induction false} DedupGrows(a: seq<Comment>, b: seq<Comment>)
    ensures Dedup(a) <= Dedup(a + b)
    decreases |b|
  {
    if b == [] {
      assert a + b == a;
    } else {
      assert (a + b)[..|a + b| - 1] == a + b[..|b| - 1];
      DedupGrows(a, b[..|b| - 1]);
    }
  }

  lemma {:induction false} DedupFixed(s: seq<Comment>)
    requires NoRepeats(s)
    ensures Dedup(s) == s
  {
    hide Same;
    if s != [] {
      var init := s[..|s| - 1];
      DedupFixed(init);
      assert s == init + [s[|s| - 1]];
      forall d | d in init ensures !Same(d, s[|s| - 1]) {
        var i :| 0 <= i < |init| && init[i] == d;
        assert s[i] == d;
      }
    }
  }

  /** Streaming equals batch: reducing what arrived first, then the rest, is one batch dedup. */
  lemma {:induction false} DedupStreams(a: seq<Comment>, b: seq<Comment>)
    ensures Dedup(Dedup(a) + b) == Dedup(a + b)
    decreases |b|
  {
    if b == [] {
      DedupExact(a);
      DedupFixed(Dedup(a));
      assert Dedup(a) + b == Dedup(a) && a + b == a;
    } else {
      var init := b[..|b| - 1];
      assert (Dedup(a) + b)[..|Dedup(a) + b| - 1] == Dedup(a) + init;
      assert (a + b)[..|a + b| - 1] == a + init;
      DedupStreams(a, init);
    }
  }

  // ---------- Markers ----------

  predicate StartsWith(s: string, at: nat, prefix: string) {
    at + |prefix| <= |s| && s[at..at + |prefix|] == prefix
  }

  function SkipSpaces(s: string, at: nat): (r: nat)
    requires at <= |s|
    ensures at <= r <= |s|
    decreases |s| - at
  {
    if at < |s| && IsSpace(s[at]) then SkipSpaces(s, at + 1) else at
  }

  /** `[^>]*-->` from `at`: the first ">" is there and "--" stands between `at` and it. */
  predicate ClosesAt(s: string, at: nat)
    decreases |s| - at
  {
    at < |s| &&
    if StartsWith(s, at, "-->") then true
    else s[at] != '>' && ClosesAt(s, at + 1)
  }

  predicate MarkerAt(s: string, at: nat)
    requires at <= |s|
  {
    && StartsWith(s, at, "<!--")
    && var name := SkipSpaces(s, at + 4);
       || (StartsWith(s, name, "df-phase:") && ClosesAt(s, name + 9))
       || (StartsWith(s, name, "df-clarify:") && ClosesAt(s, name + 11))
       || (StartsWith(s, name, "df-quarantine:") && ClosesAt(s, name + 14))
  }

  /** A closed comment: "-->" comes before any other ">". */
  ghost predicate ClosedBy(s: string, at: nat, q: nat) {
    at <= q && StartsWith(s, q, "-->") && forall j :: at <= j < q ==> s[j] != '>'
  }

  lemma {:induction false} ClosesMeans(s: string, at: nat)
    ensures ClosesAt(s, at) <==> exists q: nat :: ClosedBy(s, at, q)
    decreases |s| - at
  {
    if at < |s| {
      if StartsWith(s, at, "-->") {
        assert ClosedBy(s, at, at);
      } else {
        var next := at + 1;
        ClosesMeans(s, next);
        if ClosesAt(s, at) {
          var q: nat :| ClosedBy(s, next, q);
          assert ClosedBy(s, at, q);
        }
        if q: nat :| ClosedBy(s, at, q) {
          assert ClosedBy(s, next, q);
        }
      }
    }
  }

  /** A bookkeeping comment of the pipeline itself. */
  predicate IsMarker(c: Comment) {
    var body := c.body.GetOr("");
    exists at | 0 <= at <= |body| :: MarkerAt(body, at)
  }

  /** Human comments only, in order. */
  function HumanComments(s: seq<Comment>): seq<Comment> {
    if s == [] then []
    else (if IsMarker(s[0]) then [] else [s[0]]) + HumanComments(s[1..])
  }

  /** What stays are exactly the comments that are no bookkeeping, as often as they came. */
  lemma {:induction false} HumanCommentsMean(s: seq<Comment>)
    ensures forall c :: c in HumanComments(s) <==> c in s && !IsMarker(c)
    ensures forall c :: multiset(HumanComments(s))[c] == if IsMarker(c) then 0 else multiset(s)[c]
  {
    hide IsMarker;
    if s != [] {
      HumanCommentsMean(s[1..]);
      assert s == [s[0]] + s[1..];
    }
  }

  lemma {:induction false} HumanCommentsAppend(a: seq<Comment>, b: seq<Comment>)
    ensures HumanComments(a + b) == HumanComments(a) + HumanComments(b)
  {
    if a == [] {
      assert a + b == b;
    } else {
      assert (a + b)[1..] == a[1..] + b;
      HumanCommentsAppend(a[1..], b);
    }
  }
}
