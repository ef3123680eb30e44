/** Dispatching an issue to runs: pollers read a listing that may be stale, decide, and start the next
    run under an id that can never be used twice. */
module DispatchProtocol {
  import opened Common
  import opened IssueComments

  // ---------- Run ids ----------

  const RUN_INFIX := "-run-"
  const PREFIX := "df-issue-"

  function Slug(owner: string, name: string): string {
    owner + "-" + name
  }

  /** `_issue_workflow_id_prefix`, of a repository's slug. */
  function RunPrefix(slug: string, issue: nat): string {
    PREFIX + (slug + "-" + Digits(issue)) + RUN_INFIX
  }

  function RunId(prefix: string, n: nat): string {
    prefix + Digits(n)
  }

  predicate IsDigit(c: char) {
    '0' <= c <= '9'
  }

  /** Digits with single underscores between them, as Python's `int` reads them. */
  function ReadDigits(s: string): Option<nat> {
    if s == "" then None
    else
      var last, init := s[|s| - 1], s[..|s| - 1];
      if !IsDigit(last) then None
      else
        var digit: nat := last as int - '0' as int;
        if init == "" then Some(digit)
        else
          match ReadDigits(if init[|init| - 1] == '_' then init[..|init| - 1] else init)
          case None => None
          case Some(high) => Some(10 * high + digit)
  }

  /** Python's `int` on text: surrounding space and a sign are allowed. */
  function ReadInt(text: string): Option<int> {
    var s := Strip(text);
    if s != "" && (s[0] == '-' || s[0] == '+') then
      match ReadDigits(s[1..])
      case None => None
      case Some(n) => Some(var magnitude: int := n; if s[0] == '-' then -magnitude else magnitude)
    else
      match ReadDigits(s)
      case None => None
      case Some(n) => Some(n)
  }

  /** `_parse_run_suffix`. */
  function ParseRunSuffix(id: string, prefix: string): (n: Option<nat>)
    ensures n.Some? ==> n.value >= 1
  {
    if !(|prefix| <= |id| && id[..|prefix|] == prefix) then None
    else
      match ReadInt(id[|prefix|..])
      case None => None
      case Some(n) => if n >= 1 then Some(n) else None
  }

  lemma DigitChar(d: nat)
    requires d < 10
    ensures IsDigit("0123456789"[d]) && "0123456789"[d] as int - '0' as int == d
  {
    assert d == 0 || d == 1 || d == 2 || d == 3 || d == 4 || d == 5 || d == 6 || d == 7 || d == 8 || d == 9;
  }

  lemma {:induction false} DigitsRead(n: nat)
    ensures Digits(n) != "" && (forall c :: c in Digits(n) ==> IsDigit(c))
    ensures ReadDigits(Digits(n)) == Some(n)
    decreases n
  {
    DigitChar(n % 10);
    if n >= 10 {
      var high, last := Digits(n / 10), "0123456789"[n % 10];
      DigitsRead(n / 10);
      ReadOneMore(high, last);
    }
  }

  lemma ReadOneMore(high: string, last: char)
    requires high != "" && IsDigit(last) && forall c :: c in high ==> IsDigit(c)
    ensures ReadDigits(high + [last]) ==
      match ReadDigits(high) case None => None case Some(n) => Some(10 * n + (last as int - '0' as int))
  {
    var s := high + [last];
    assert s[..|s| - 1] == high && high[|high| - 1] in high;
  }

  lemma StripDigits(s: string)
    requires s != "" && forall c :: c in s ==> IsDigit(c)
    ensures Strip(s) == s
  {
    assert s[0] in s && s[|s| - 1] in s;
  }

  /** Every id the dispatcher makes is read back as the number it was made from. */
  lemma RunIdRoundTrip(prefix: string, n: nat)
    requires n >= 1
    ensures ParseRunSuffix(RunId(prefix, n), prefix) == Some(n)
  {
    var id := RunId(prefix, n);
    assert id[..|prefix|] == prefix && id[|prefix|..] == Digits(n);
    DigitsRead(n);
    StripDigits(Digits(n));
    assert Digits(n)[0] in Digits(n);
  }

  lemma SplitAtDash(a: string, d: string, b: string, e: string)
    requires a + "-" + d == b + "-" + e && |d| <= |e| && '-' !in e
    ensures a == b && d == e
  {
    var s := a + "-" + d;
    assert s[|a|] == '-';
    forall i | |b| < i < |s| ensures s[i] != '-' {
      assert s[i] == e[i - |b| - 1];
    }
    assert |a| == |b|;
    assert a == s[..|a|] && b == s[..|b|];
    assert d == s[|a| + 1..] && e == s[|b| + 1..];
  }

  lemma DashedDigits(a: string, m: nat, b: string, n: nat)
    requires a + "-" + Digits(m) == b + "-" + Digits(n) && |Digits(m)| <= |Digits(n)|
    ensures a == b && m == n
  {
    hide Digits, ReadDigits;
    DigitsRead(m);
    DigitsRead(n);
    SplitAtDash(a, Digits(m), b, Digits(n));
  }

  /** Two issues share their run ids iff they have the same number and the owner-name spellings of
      their repositories coincide. */
  lemma PrefixesSharedIff(slug: string, issue: nat, slug': string, issue': nat)
    ensures RunPrefix(slug, issue) == RunPrefix(slug', issue') <==> slug == slug' && issue == issue'
  {
    if RunPrefix(slug, issue) == RunPrefix(slug', issue') {
      var a, b := slug + "-" + Digits(issue), slug' + "-" + Digits(issue');
      var p := RunPrefix(slug, issue);
      assert |a| == |b| && a == p[|PREFIX|..|PREFIX| + |a|] && b == p[|PREFIX|..|PREFIX| + |b|];
      if |Digits(issue)| <= |Digits(issue')| {
        DashedDigits(slug, issue, slug', issue');
      } else {
        DashedDigits(slug', issue', slug, issue);
      }
    }
  }

  /** So a run id does not always name one repository: a dash in an owner or a name can move. */
  lemma SlugsCollide()
    ensures Slug("a-b", "c") == Slug("a", "b-c") && ("a-b", "c") != ("a", "b-c")
  {
    assert Slug("a-b", "c") == "a-b-c" && Slug("a", "b-c") == "a-b-c";
    assert |"a-b"| != |"a"|;
  }

  // ---------- The latest run ----------

  datatype Status = Running | Closed(reason: string)

  datatype Execution = Execution(id: string, status: Status)

  datatype Found = Found(n: nat, id: string, status: Status)

  const PAGE_CAP: nat := 50 * 1000

  /** The executions whose id carries a run number. */
  function Parsed(executions: seq<Execution>, prefix: string): seq<Found> {
    if executions == [] then []
    else
      var init, last := Parsed(executions[..|executions| - 1], prefix), executions[|executions| - 1];
      match ParseRunSuffix(last.id, prefix)
      case None => init
      case Some(n) => init + [Found(n, last.id, last.status)]
  }

  /** The first of those with the highest number. */
  function BestOf(found: seq<Found>): Option<Found> {
    if found == [] then None
    else
      var best, last := BestOf(found[..|found| - 1]), found[|found| - 1];
      if best.None? || last.n > best.value.n then Some(last) else best
  }

  function Capped(found: seq<Found>): seq<Found> {
    if |found| > PAGE_CAP then found[..PAGE_CAP] else found
  }

  function Latest(executions: seq<Execution>, prefix: string): Option<Found> {
    BestOf(Capped(Parsed(executions, prefix)))
  }

  lemma {:induction false} ParsedGrows(executions: seq<Execution>, prefix: string, i: nat)
    requires i <= |executions|
    ensures Parsed(executions[..i], prefix) <= Parsed(executions, prefix)
    decreases |executions|
  {
    if i == |executions| {
      assert executions[..i] == executions;
    } else {
      var init := executions[..|executions| - 1];
      ParsedGrows(init, prefix, i);
      assert init[..i] == executions[..i];
    }
  }

  /** `_resolve_latest_run`. */
  method ResolveLatestRun(executions: seq<Execution>, prefix: string) returns (latest: Option<Found>)
    ensures latest == Latest(executions, prefix)
  {
    latest := None;
    var seen := 0;
    for i := 0 to |executions|
      invariant seen == |Parsed(executions[..i], prefix)| < PAGE_CAP
      invariant latest == BestOf(Parsed(executions[..i], prefix))
    {
      assert executions[..i + 1][..i] == executions[..i];
      var n := ParseRunSuffix(executions[i].id, prefix);
      if n.Some? {
        var next := Found(n.value, executions[i].id, executions[i].status);
        assert (Parsed(executions[..i], prefix) + [next])[..seen] == Parsed(executions[..i], prefix);
        if latest.None? || n.value > latest.value.n {
          latest := Some(next);
        }
        seen := seen + 1;
        if seen >= PAGE_CAP {
          ParsedGrows(executions, prefix, i + 1);
          assert Capped(Parsed(executions, prefix)) == Parsed(executions[..i + 1], prefix);
          return;
        }
      }
    }
    assert executions[..|executions|] == executions;
  }

  /** It is there, and none of those read has a higher number. */
  lemma {:induction false} BestIsHighest(found: seq<Found>)
    ensures BestOf(found).None? <==> found == []
    ensures BestOf(found).Some? ==> BestOf(found).value in found && forall f :: f in found ==> f.n <= BestOf(found).value.n
  {
    if found != [] {
      BestIsHighest(found[..|found| - 1]);
      assert found == found[..|found| - 1] + [found[|found| - 1]];
    }
  }

  /** The number an execution's id carries, 0 for none. */
  function NumberOf(e: Execution, prefix: string): nat {
    ParseRunSuffix(e.id, prefix).GetOr(0)
  }

  /** Execution i is the first one with the highest run number of a listing. */
  ghost predicate IsLatest(executions: seq<Execution>, prefix: string, i: int) {
    && 0 <= i < |executions| && NumberOf(executions[i], prefix) > 0
    && forall k :: 0 <= k < |executions| ==>
         && NumberOf(executions[k], prefix) <= NumberOf(executions[i], prefix)
         && (k < i ==> NumberOf(executions[k], prefix) < NumberOf(executions[i], prefix))
  }

  lemma {:induction false} ParsedLatest(executions: seq<Execution>, prefix: string)
    ensures BestOf(Parsed(executions, prefix)) == None <==>
      forall i :: 0 <= i < |executions| ==> NumberOf(executions[i], prefix) == 0
    ensures forall f :: BestOf(Parsed(executions, prefix)) == Some(f) ==>
      exists i :: IsLatest(executions, prefix, i) && f == Found(NumberOf(executions[i], prefix), executions[i].id, executions[i].status)
  {
    if executions != [] {
      var n := |executions| - 1;
      var init, last := executions[..n], executions[n];
      ParsedOne(executions, prefix);
      hide ParseRunSuffix, Parsed, BestOf, NumberOf, IsLatest;
      ParsedLatest(init, prefix);
      assert forall k :: 0 <= k < n ==> init[k] == executions[k];
      var best := BestOf(Parsed(init, prefix));
      if best.Some? {
        var i :| IsLatest(init, prefix, i) && best.value == Found(NumberOf(init[i], prefix), init[i].id, init[i].status);
        LatestExtends(executions, prefix, i);
      } else {
        FirstIsLatest(executions, prefix);
      }
    }
  }

  /** The best of one execution more. */
  lemma ParsedOne(executions: seq<Execution>, prefix: string)
    requires executions != []
    ensures var n := |executions| - 1;
      var best, k, e := BestOf(Parsed(executions[..n], prefix)), NumberOf(executions[n], prefix), executions[n];
      BestOf(Parsed(executions, prefix)) ==
        if k > 0 && (best.None? || k > best.value.n) then Some(Found(k, e.id, e.status)) else best
  {
    var n := |executions| - 1;
    var found, next := Parsed(executions[..n], prefix), Found(NumberOf(executions[n], prefix), executions[n].id, executions[n].status);
    assert (found + [next])[..|found|] == found;
  }

  lemma LatestExtends(executions: seq<Execution>, prefix: string, i: nat)
    requires executions != [] && IsLatest(executions[..|executions| - 1], prefix, i)
    ensures var n := |executions| - 1;
      if NumberOf(executions[n], prefix) > NumberOf(executions[i], prefix) then IsLatest(executions, prefix, n)
      else IsLatest(executions, prefix, i)
    ensures i < |executions| && executions[..|executions| - 1][i] == executions[i]
    ensures NumberOf(executions[i], prefix) > 0
  {
    hide NumberOf;
    assert forall k :: 0 <= k < |executions| - 1 ==> executions[..|executions| - 1][k] == executions[k];
  }

  lemma FirstIsLatest(executions: seq<Execution>, prefix: string)
    requires executions != [] && forall k :: 0 <= k < |executions| - 1 ==> NumberOf(executions[k], prefix) == 0
    ensures NumberOf(executions[|executions| - 1], prefix) > 0 ==> IsLatest(executions, prefix, |executions| - 1)
  {}

  lemma {:induction false} ParsedShorter(executions: seq<Execution>, prefix: string)
    ensures |Parsed(executions, prefix)| <= |executions|
  {
    if executions != [] {
      ParsedShorter(executions[..|executions| - 1], prefix);
    }
  }

  /** A listing of up to 50000 executions is read whole: nothing is found iff no id carries a run number,
      and what is found is the first execution with the highest one. */
  lemma LatestExact(executions: seq<Execution>, prefix: string)
    requires |executions| <= PAGE_CAP
    ensures Latest(executions, prefix) == None <==>
      forall i :: 0 <= i < |executions| ==> NumberOf(executions[i], prefix) == 0
    ensures forall f :: Latest(executions, prefix) == Some(f) ==>
      exists i :: IsLatest(executions, prefix, i) && f == Found(NumberOf(executions[i], prefix), executions[i].id, executions[i].status)
  {
    hide Parsed, BestOf, IsLatest;
    ParsedShorter(executions, prefix);
    ParsedLatest(executions, prefix);
  }

  /** Of a longer listing the part with the first 50000 numbered executions is read, in the same way. */
  lemma LatestOfLong(executions: seq<Execution>, prefix: string) returns (c: nat)
    requires |Parsed(executions, prefix)| > PAGE_CAP
    ensures c <= |executions| && |Parsed(executions[..c], prefix)| == PAGE_CAP
    ensures forall f :: Latest(executions, prefix) == Some(f) ==>
      exists i :: IsLatest(executions[..c], prefix, i)
                  && f == Found(NumberOf(executions[i], prefix), executions[i].id, executions[i].status)
  {
    hide BestOf, IsLatest, Parsed, NumberOf;
    c := CutAt(executions, prefix, PAGE_CAP);
    ParsedGrows(executions, prefix, c);
    assert Capped(Parsed(executions, prefix)) == Parsed(executions[..c], prefix);
    ParsedLatest(executions[..c], prefix);
    InRange(executions[..c], prefix);
  }

  lemma InRange(executions: seq<Execution>, prefix: string)
    ensures forall i :: IsLatest(executions, prefix, i) ==> 0 <= i < |executions|
  {}

  lemma {:induction false} CutAt(executions: seq<Execution>, prefix: string, count: nat) returns (c: nat)
    requires |Parsed(executions, prefix)| >= count
    ensures c <= |executions| && |Parsed(executions[..c], prefix)| == count
  {
    if |Parsed(executions, prefix)| == count {
      c := |executions|;
      assert executions[..c] == executions;
    } else {
      var init := executions[..|executions| - 1];
      c := CutAt(init, prefix, count);
      assert init[..c] == executions[..c];
    }
  }

  lemma {:induction false} ParsedAre(executions: seq<Execution>, prefix: string)
    ensures forall f :: f in Parsed(executions, prefix) ==>
      Execution(f.id, f.status) in executions && ParseRunSuffix(f.id, prefix) == Some(f.n)
  {
    if executions != [] {
      ParsedAre(executions[..|executions| - 1], prefix);
      assert executions == executions[..|executions| - 1] + [executions[|executions| - 1]];
    }
  }

  // ---------- The decision ----------

  predicate Contains(text: string, part: string) {
    exists at | 0 <= at <= |text| :: StartsWith(text, at, part)
  }

  function Marker(id: string): string {
    "<!-- df-quarantine:" + id + " -->"
  }

  /** `_marker_in_comments`. */
  predicate MarkerIn(comments: seq<Comment>, id: string) {
    id != "" && exists c | c in comments :: Contains(c.body.GetOr(""), Marker(id))
  }

  /** What one call sees: the listing, the legacy probe, the issue's comments, the start budget. */
  datatype View = View(executions: seq<Execution>, legacyRunning: bool, comments: seq<Comment>, allowStart: bool)

  datatype Decision = SyncRun(n: nat) | SyncLegacy | Ignore(n: nat) | Throttle(n: nat) | Start(n: nat)

  function Decide(view: View, prefix: string): Decision {
    match Latest(view.executions, prefix)
    case None =>
      if view.legacyRunning then SyncLegacy else if view.allowStart then Start(1) else Throttle(1)
    case Some(latest) =>
      if latest.status.Running? then SyncRun(latest.n)
      else if !MarkerIn(view.comments, latest.id) then Ignore(latest.n)
      else if view.allowStart then Start(latest.n + 1)
      else Throttle(latest.n + 1)
  }

  /** `start_or_update_issue_workflow_activity` up to the start. */
  method StartOrUpdate(view: View, prefix: string) returns (decision: Decision)
    ensures decision == Decide(view, prefix)
  {
    var latest := ResolveLatestRun(view.executions, prefix);
    if latest.Some? && latest.value.status == Running {
      return SyncRun(latest.value.n);
    }
    if latest == None && view.legacyRunning {
      return SyncLegacy;
    }
    var next := 1;
    if latest.Some? {
      if !MarkerIn(view.comments, latest.value.id) {
        return Ignore(latest.value.n);
      }
      next := latest.value.n + 1;
    }
    if !view.allowStart {
      return Throttle(next);
    }
    decision := Start(next);
  }

  /** The decision, in terms of the listing and the text of the comments: without a numbered run the
      legacy run is synced with or run 1 started; a highest run that is running is synced with; a closed
      one is left alone until a comment names it in a quarantine marker, and then the next one starts. */
  lemma DecideExact(view: View, prefix: string, i: int)
    requires |view.executions| <= PAGE_CAP
    ensures (forall k :: 0 <= k < |view.executions| ==> NumberOf(view.executions[k], prefix) == 0) ==>
      Decide(view, prefix) == (if view.legacyRunning then SyncLegacy else if view.allowStart then Start(1) else Throttle(1))
    ensures IsLatest(view.executions, prefix, i) ==>
      var e, n := view.executions[i], NumberOf(view.executions[i], prefix);
      Decide(view, prefix) ==
        (if e.status.Running? then SyncRun(n)
         else if !Named(view.comments, e.id) then Ignore(n)
         else if view.allowStart then Start(n + 1)
         else Throttle(n + 1))
  {
    hide Latest, ParseRunSuffix, MarkerIn, Named;
    LatestExact(view.executions, prefix);
    if IsLatest(view.executions, prefix, i) {
      MarkerMeans(view.comments, view.executions[i].id);
      NoIdNoNumber(prefix);
      var j :| IsLatest(view.executions, prefix, j)
        && Latest(view.executions, prefix)
           == Some(Found(NumberOf(view.executions[j], prefix), view.executions[j].id, view.executions[j].status));
      assert i == j;
    }
  }

  lemma NoIdNoNumber(prefix: string)
    ensures ParseRunSuffix("", prefix) == None
  {}

  /** Some comment's text contains the marker of this run. */
  ghost predicate Named(comments: seq<Comment>, id: string) {
    exists c, a, b :: c in comments && c.body == Some(a + ("<!-- df-quarantine:" + id + " -->") + b)
  }

  lemma ContainsMeans(text: string, part: string)
    ensures Contains(text, part) <==> exists a, b :: text == a + part + b
  {
    if at :| 0 <= at <= |text| && StartsWith(text, at, part) {
      assert text == text[..at] + part + text[at + |part|..];
    }
    if a, b :| text == a + part + b {
      assert StartsWith(text, |a|, part);
    }
  }

  lemma MarkerMeans(comments: seq<Comment>, id: string)
    ensures MarkerIn(comments, id) <==> id != "" && Named(comments, id)
  {
    forall c | c in comments
      ensures Contains(c.body.GetOr(""), Marker(id)) <==> exists a, b :: c.body == Some(a + Marker(id) + b)
    {
      ContainsMeans(c.body.GetOr(""), Marker(id));
    }
  }

  /** Comments of which none has the run's id in its text do not mark it. */
  lemma MarkerNeedsId(comments: seq<Comment>, id: string)
    requires MarkerIn(comments, id)
    ensures exists c | c in comments :: Contains(c.body.GetOr(""), id)
  {
    MarkerMeans(comments, id);
    var c, a, b :| c in comments && c.body == Some(a + ("<!-- df-quarantine:" + id + " -->") + b);
    assert c.body.value == (a + "<!-- df-quarantine:") + id + (" -->" + b);
    ContainsMeans(c.body.value, id);
  }

  /** What the quarantine posts for a run. */
  function MarkerComment(id: string): Comment {
    Comment(NoId, "", Some(Marker(id)))
  }

  const HEAD := "<!-- df-quarantine:"
  const CLOSING := " -->"

  /** A marker of one run holds no other run's marker: it would have to end where the one ends, and then
      the shared text before the numbers would be all digits. */
  lemma MarkerNamesOneRun(prefix: string, m: nat, n: nat)
    requires m >= 1 && n >= 1
    ensures MarkerIn([MarkerComment(RunId(prefix, m))], RunId(prefix, n)) <==> m == n
  {
    hide Digits, ReadDigits, Marker, RunId;
    var big, small := Marker(RunId(prefix, m)), Marker(RunId(prefix, n));
    var c := MarkerComment(RunId(prefix, m));
    assert c in [c] && c.body == Some(big);
    MarkerParts(prefix, m);
    MarkerParts(prefix, n);
    if at :| 0 <= at <= |big| && StartsWith(big, at, small) {
      OneOccurrence(HEAD + prefix, m, n, at);
    }
    if m == n {
      assert StartsWith(big, 0, small);
    }
  }

  lemma OneOccurrence(head: string, m: nat, n: nat, at: nat)
    requires head != "" && head[0] == '<' && StartsWith(head + Digits(m) + CLOSING, at, head + Digits(n) + CLOSING)
    ensures m == n
  {
    hide Digits, ReadDigits;
    DigitsRead(m);
    DigitsRead(n);
    EndsTogether(head, Digits(m), Digits(n), at);
    if at > 0 {
      SharedHeadIsDigits(head, Digits(m), Digits(n), at, 0);
    }
    var big, small := head + Digits(m) + CLOSING, head + Digits(n) + CLOSING;
    assert big == small;
    assert Digits(m) == big[|head|..|head| + |Digits(m)|] && Digits(n) == small[|head|..|head| + |Digits(n)|];
  }

  lemma MarkerParts(prefix: string, n: nat)
    ensures Marker(RunId(prefix, n)) == (HEAD + prefix) + Digits(n) + CLOSING && RunId(prefix, n) != ""
  {
    DigitsRead(n);
  }

  /** An occurrence must close at the closing. */
  lemma EndsTogether(head: string, d: string, e: string, at: nat)
    requires StartsWith(head + d + CLOSING, at, head + e + CLOSING)
    requires forall c :: c in d ==> IsDigit(c)
    ensures at + |e| == |d|
  {
    var big, small := head + d + CLOSING, head + e + CLOSING;
    assert big[at..at + |small|][|small| - 1] == '>';
    OnlyTheLastCloses(head, d, at + |small| - 1);
  }

  lemma OnlyTheLastCloses(head: string, d: string, k: nat)
    requires |head| <= k < |head + d + CLOSING| && forall c :: c in d ==> IsDigit(c)
    ensures (head + d + CLOSING)[k] == '>' ==> k == |head + d + CLOSING| - 1
  {
    if k < |head| + |d| {
      assert (head + d + CLOSING)[k] == d[k - |head|] && d[k - |head|] in d;
    } else {
      assert (head + d + CLOSING)[k] == CLOSING[k - |head| - |d|];
    }
  }

  lemma SharedHeadIsDigits(head: string, d: string, e: string, at: nat, i: nat)
    requires StartsWith(head + d + CLOSING, at, head + e + CLOSING) && at + |e| == |d| && at > 0
    requires i < |head| && forall c :: c in d ==> IsDigit(c)
    ensures IsDigit(head[i])
    decreases |head| - i
  {
    var big, small := head + d + CLOSING, head + e + CLOSING;
    assert small[i] == head[i] && big[at + i] == small[i];
    if at + i < |head| {
      SharedHeadIsDigits(head, d, e, at, at + i);
      assert big[at + i] == head[at + i];
    } else {
      assert big[at + i] == d[at + i - |head|];
      assert big[at + i] in d;
    }
  }

  // ---------- The protocol ----------

  datatype Happening = Created(n: nat) | Ended(n: nat) | Commented(comment: Comment) | LegacyEnded

  /** Everything outside the pollers, and the calls in flight with what they have read. `closed` holds
      of the runs that exist whether they are closed; `before` are the comments at the start. */
  datatype World = World(closed: map<nat, bool>, legacyRunning: bool, before: seq<Comment>,
                         calls: map<nat, View>, history: seq<Happening>)

  function CommentsOf(history: seq<Happening>): seq<Comment> {
    if history == [] then []
    else
      CommentsOf(history[..|history| - 1])
      + match history[|history| - 1] case Commented(c) => [c] case _ => []
  }

  function CreatedOf(history: seq<Happening>): seq<nat> {
    if history == [] then []
    else
      CreatedOf(history[..|history| - 1])
      + match history[|history| - 1] case Created(n) => [n] case _ => []
  }

  function Posted(w: World): seq<Comment> {
    w.before + CommentsOf(w.history)
  }

  /** What a call may have read: any part of the listing, with statuses that may be old, since a
      closed run stays closed; comments that were posted; a legacy run that is gone stays gone. */
  ghost predicate Legal(w: World, prefix: string, view: View) {
    && (forall e :: e in view.executions ==> RunRead(w, prefix, e))
    && (!view.legacyRunning ==> !w.legacyRunning)
    && (forall c :: c in view.comments ==> c in Posted(w))
  }

  ghost predicate RunRead(w: World, prefix: string, e: Execution) {
    match ParseRunSuffix(e.id, prefix)
    case None => true
    case Some(n) => e.id == RunId(prefix, n) && n in w.closed && (e.status.Closed? ==> w.closed[n])
  }

  datatype Step =
    | Call(id: nat, view: View)
    | Act(id: nat)
    | EndRun(n: nat)
    | Say(comment: Comment)
    | EndLegacy

  ghost predicate Enabled(w: World, prefix: string, step: Step) {
    match step
    case Call(_, view) => Legal(w, prefix, view)
    case Act(id) => id in w.calls
    case EndRun(n) => n in w.closed && !w.closed[n]
    case Say(_) => true
    case EndLegacy => w.legacyRunning
  }

  /** A start under an id that exists is rejected, running or not. */
  function StartRun(w: World, n: nat): World {
    if n in w.closed then w
    else w.(closed := w.closed[n := false], history := w.history + [Created(n)])
  }

  function After(w: World, prefix: string, step: Step): World {
    match step
    case Call(id, view) => w.(calls := w.calls[id := view])
    case Act(id) =>
      if id !in w.calls then w
      else
        (match Decide(w.calls[id], prefix)
         case Start(n) => StartRun(w, n)
         case _ => w)
    case EndRun(n) => w.(closed := w.closed[n := true], history := w.history + [Ended(n)])
    case Say(c) => w.(history := w.history + [Commented(c)])
    case EndLegacy => w.(legacyRunning := false, history := w.history + [LegacyEnded])
  }

  predicate Initial(w: World) {
    w.closed == map[] && w.calls == map[] && w.history == []
  }

  /** The run numbers 1 to n. */
  function UpTo(n: nat): seq<nat> {
    if n == 0 then [] else UpTo(n - 1) + [n]
  }

  ghost predicate Numbered(w: World, n: nat) {
    && (forall k :: k in w.closed <==> 1 <= k <= n)
    && (forall k :: 1 <= k < n ==> w.closed[k])
    && (n > 0 ==> !w.legacyRunning)
  }

  /** Runs are created in order, each after the one before closed and its marker was posted. */
  ghost predicate InOrder(before: seq<Comment>, prefix: string, history: seq<Happening>) {
    history == [] ||
    var init := history[..|history| - 1];
    InOrder(before, prefix, init) && Follows(before, prefix, init, history[|history| - 1])
  }

  ghost predicate Follows(before: seq<Comment>, prefix: string, init: seq<Happening>, next: Happening) {
    next.Created? ==>
      && next.n == |CreatedOf(init)| + 1
      && (next.n > 1 ==> Ended(next.n - 1) in init
                         && MarkerIn(before + CommentsOf(init), RunId(prefix, next.n - 1)))
  }

  ghost predicate EndsRecorded(w: World) {
    forall k :: k in w.closed && w.closed[k] ==> Ended(k) in w.history
  }

  ghost predicate CallsLegal(w: World, prefix: string) {
    forall id :: id in w.calls ==> Legal(w, prefix, w.calls[id])
  }

  ghost predicate RunsInOrder(w: World, prefix: string) {
    && Numbered(w, |CreatedOf(w.history)|) && CreatedOf(w.history) == UpTo(|CreatedOf(w.history)|)
    && InOrder(w.before, prefix, w.history) && EndsRecorded(w)
  }

  /** The protocol's invariant. */
  ghost predicate Inv(w: World, prefix: string) {
    RunsInOrder(w, prefix) && CallsLegal(w, prefix)
  }

  lemma HistoryOne(history: seq<Happening>, next: Happening)
    ensures CreatedOf(history + [next]) == CreatedOf(history) + if next.Created? then [next.n] else []
    ensures CommentsOf(history + [next]) == CommentsOf(history) + if next.Commented? then [next.comment] else []
    ensures forall before, prefix ::
      InOrder(before, prefix, history + [next]) <==> InOrder(before, prefix, history) && Follows(before, prefix, history, next)
  {
    assert (history + [next])[..|history + [next]| - 1] == history;
  }

  /** What a call has read stays legal whatever happens next. */
  lemma LegalStays(w: World, prefix: string, step: Step, view: View)
    requires Legal(w, prefix, view) && Enabled(w, prefix, step)
    ensures Legal(After(w, prefix, step), prefix, view)
  {
    var next := After(w, prefix, step);
    if |next.history| > |w.history| {
      HistoryOne(w.history, next.history[|w.history|]);
    }
    forall e | e in view.executions ensures RunRead(next, prefix, e) {
      assert RunRead(w, prefix, e);
    }
  }

  /** A start decided on a legal view is either rejected or creates the next run in order. */
  lemma StartIsNext(w: World, prefix: string, view: View)
    requires Inv(w, prefix) && Legal(w, prefix, view) && Decide(view, prefix).Start?
    ensures var n, count := Decide(view, prefix).n, |CreatedOf(w.history)|;
      && 1 <= n <= count + 1
      && (n == count + 1 ==> !w.legacyRunning)
      && (n == count + 1 > 1 ==> w.closed[count] && MarkerIn(Posted(w), RunId(prefix, count)))
  {
    var found := Capped(Parsed(view.executions, prefix));
    BestIsHighest(found);
    ParsedAre(view.executions, prefix);
    var latest := Latest(view.executions, prefix);
    if latest.Some? {
      var e := Execution(latest.value.id, latest.value.status);
      assert latest.value in Parsed(view.executions, prefix);
      assert e in view.executions && RunRead(w, prefix, e);
    }
  }

  /** The runs handed back for quarantine are closed, and the ones to sync with exist. */
  lemma IgnoredRunIsClosed(w: World, prefix: string, view: View)
    requires Legal(w, prefix, view)
    ensures match Decide(view, prefix)
      case Ignore(n) => n in w.closed && w.closed[n]
      case SyncRun(n) => n in w.closed
      case _ => true
  {
    BestIsHighest(Capped(Parsed(view.executions, prefix)));
    ParsedAre(view.executions, prefix);
    var latest := Latest(view.executions, prefix);
    if latest.Some? {
      assert latest.value in Parsed(view.executions, prefix);
      assert RunRead(w, prefix, Execution(latest.value.id, latest.value.status));
    }
  }

  lemma ActKeepsOrder(w: World, prefix: string, id: nat)
    requires Inv(w, prefix) && id in w.calls
    ensures RunsInOrder(After(w, prefix, Act(id)), prefix)
  {
    hide InOrder, Legal, MarkerIn, Decide, CommentsOf, CreatedOf, UpTo, EndsRecorded;
    if Decide(w.calls[id], prefix).Start? && Decide(w.calls[id], prefix).n !in w.closed {
      StartIsNext(w, prefix, w.calls[id]);
      StartKeepsOrder(w, prefix);
    }
  }

  lemma StartKeepsOrder(w: World, prefix: string)
    requires RunsInOrder(w, prefix) && !w.legacyRunning
    requires var count := |CreatedOf(w.history)|;
      count > 0 ==> w.closed[count] && MarkerIn(Posted(w), RunId(prefix, count))
    ensures RunsInOrder(StartRun(w, |CreatedOf(w.history)| + 1), prefix)
  {
    hide InOrder, CreatedOf, CommentsOf, Follows, Numbered, EndsRecorded;
    var n := |CreatedOf(w.history)| + 1;
    StartNumbers(w, n);
    StartFollows(w, prefix);
    HistoryOne(w.history, Created(n));
  }

  lemma StartNumbers(w: World, n: nat)
    requires n > 0 && Numbered(w, n - 1) && EndsRecorded(w) && !w.legacyRunning
    requires n > 1 ==> w.closed[n - 1]
    ensures Numbered(StartRun(w, n), n) && EndsRecorded(StartRun(w, n)) && n !in w.closed
  {}

  lemma StartFollows(w: World, prefix: string)
    requires RunsInOrder(w, prefix)
    requires var count := |CreatedOf(w.history)|;
      count > 0 ==> w.closed[count] && MarkerIn(Posted(w), RunId(prefix, count))
    ensures Follows(w.before, prefix, w.history, Created(|CreatedOf(w.history)| + 1))
  {
    hide InOrder, MarkerIn, CreatedOf, CommentsOf;
  }

  lemma EndKeepsOrder(w: World, prefix: string, n: nat)
    requires RunsInOrder(w, prefix) && n in w.closed && !w.closed[n]
    ensures RunsInOrder(After(w, prefix, EndRun(n)), prefix)
  {
    hide InOrder, MarkerIn, CommentsOf;
    HistoryOne(w.history, Ended(n));
  }

  lemma SayKeepsOrder(w: World, prefix: string, c: Comment)
    requires RunsInOrder(w, prefix)
    ensures RunsInOrder(After(w, prefix, Say(c)), prefix)
  {
    hide InOrder, MarkerIn, CommentsOf;
    HistoryOne(w.history, Commented(c));
  }

  lemma LegacyKeepsOrder(w: World, prefix: string)
    requires RunsInOrder(w, prefix)
    ensures RunsInOrder(After(w, prefix, EndLegacy), prefix)
  {
    hide InOrder, MarkerIn, CommentsOf;
    HistoryOne(w.history, LegacyEnded);
  }

  /** Every step of every poller, run, commenter keeps the invariant. */
  lemma StepKeepsInv(w: World, prefix: string, step: Step)
    requires Inv(w, prefix) && Enabled(w, prefix, step)
    ensures Inv(After(w, prefix, step), prefix)
  {
    hide RunsInOrder, Legal, Decide;
    var next := After(w, prefix, step);
    forall id | id in next.calls ensures Legal(next, prefix, next.calls[id]) {
      LegalStays(w, prefix, step, next.calls[id]);
    }
    match step
    case Act(id) => ActKeepsOrder(w, prefix, id);
    case EndRun(n) => EndKeepsOrder(w, prefix, n);
    case Say(c) => SayKeepsOrder(w, prefix, c);
    case EndLegacy => LegacyKeepsOrder(w, prefix);
    case Call(id, view) => CallKeepsOrder(w, prefix, id, view);
  }

  lemma CallKeepsOrder(w: World, prefix: string, id: nat, view: View)
    requires RunsInOrder(w, prefix)
    ensures RunsInOrder(After(w, prefix, Call(id, view)), prefix)
  {}

  ghost predicate Happens(w: World, prefix: string, step: Step, next: World) {
    Enabled(w, prefix, step) && next == After(w, prefix, step)
  }

  /** The worlds a schedule of steps passes through. */
  ghost predicate IsExecution(worlds: seq<World>, prefix: string, steps: seq<Step>) {
    && |worlds| == |steps| + 1 && Initial(worlds[0])
    && forall i :: 0 <= i < |steps| ==> Happens(worlds[i], prefix, steps[i], worlds[i + 1])
  }

  lemma {:induction false} ExecutionKeepsInv(worlds: seq<World>, prefix: string, steps: seq<Step>, i: nat)
    requires IsExecution(worlds, prefix, steps) && i <= |steps|
    ensures Inv(worlds[i], prefix)
  {
    if i > 0 {
      ExecutionKeepsInv(worlds, prefix, steps, i - 1);
      assert Happens(worlds[i - 1], prefix, steps[i - 1], worlds[i]);
      StepKeepsInv(worlds[i - 1], prefix, steps[i - 1]);
    }
  }

  /** The runs created are exactly 1 to n in order, and at most one run is running, the legacy run
      included. */
  ghost predicate OneAtATime(w: World) {
    && CreatedOf(w.history) == UpTo(|CreatedOf(w.history)|)
    && (forall k :: k in w.closed <==> 1 <= k <= |CreatedOf(w.history)|)
    && (forall a, b :: a in w.closed && b in w.closed && !w.closed[a] && !w.closed[b] ==> a == b)
    && (forall a :: a in w.closed && !w.closed[a] ==> !w.legacyRunning)
  }

  /** Dispatch safety: at every moment of every interleaving. */
  lemma DispatchIsSafe(worlds: seq<World>, prefix: string, steps: seq<Step>, i: nat)
    requires IsExecution(worlds, prefix, steps) && i <= |steps|
    ensures OneAtATime(worlds[i])
  {
    ExecutionKeepsInv(worlds, prefix, steps, i);
  }

  lemma {:induction false} InOrderPrefix(before: seq<Comment>, prefix: string, history: seq<Happening>, i: nat)
    requires InOrder(before, prefix, history) && i < |history|
    ensures Follows(before, prefix, history[..i], history[i])
    decreases |history|
  {
    if i < |history| - 1 {
      InOrderPrefix(before, prefix, history[..|history| - 1], i);
      assert history[..|history| - 1][..i] == history[..i];
    }
  }

  /** Run k + 1 is created only after run k closed and its quarantine marker was posted. */
  lemma NextRunWaits(worlds: seq<World>, prefix: string, steps: seq<Step>, i: nat, h: nat)
    requires IsExecution(worlds, prefix, steps) && i <= |steps|
    requires h < |worlds[i].history| && worlds[i].history[h].Created? && worlds[i].history[h].n > 1
    ensures var history := worlds[i].history; var k := history[h].n - 1;
      && (exists j :: 0 <= j < h && history[j] == Ended(k))
      && Named(worlds[i].before + CommentsOf(history[..h]), RunId(prefix, k))
  {
    ExecutionKeepsInv(worlds, prefix, steps, i);
    var end := worlds[i];
    InOrderPrefix(end.before, prefix, end.history, h);
    var j :| 0 <= j < h && end.history[..h][j] == Ended(end.history[h].n - 1);
    assert end.history[j] == Ended(end.history[h].n - 1);
    MarkerMeans(end.before + CommentsOf(end.history[..h]), RunId(prefix, end.history[h].n - 1));
  }
}
