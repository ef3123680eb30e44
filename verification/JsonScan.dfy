/** The string-aware brace scanner that cuts the first JSON object out of a model's answer. */
module JsonScan {
  import opened Common

  // ---------- The scanner ----------

  /** Is the next character inside a string literal, and if so is it escaped? */
  datatype Mode = Outside | Inside(escaped: bool)

  function NextMode(mode: Mode, ch: char): Mode {
    match mode
    case Outside => if ch == '"' then Inside(false) else Outside
    case Inside(true) => Inside(false)
    case Inside(false) => if ch == '\\' then Inside(true) else if ch == '"' then Outside else mode
  }

  /** The mode after reading a text from a given mode. */
  function ModeAfter(mode: Mode, text: string): Mode {
    if text == "" then mode
    else NextMode(ModeAfter(mode, text[..|text| - 1]), text[|text| - 1])
  }

  /** A character that stands outside every string literal of the text before it. */
  predicate Bare(text: string, i: nat)
    requires i < |text|
  {
    ModeAfter(Outside, text[..i]) == Outside
  }

  function Weight(ch: char): int {
    if ch == '{' then 1 else if ch == '}' then -1 else 0
  }

  /** Bare opening minus bare closing braces in text[a..b]. */
  function Balance(text: string, a: nat, b: nat): int
    requires a <= b <= |text|
    decreases b
  {
    if a == b then 0
    else Balance(text, a, b - 1) + (if Bare(text, b - 1) then Weight(text[b - 1]) else 0)
  }

  /** The object starts at the first bare opening brace ... */
  ghost predicate FirstOpening(text: string, a: nat) {
    && a < |text| && text[a] == '{' && Bare(text, a)
    && forall i :: 0 <= i < a && text[i] == '{' ==> !Bare(text, i)
  }

  /** ... and ends where the braces balance for the first time. */
  ghost predicate FirstClosing(text: string, a: nat, b: nat) {
    && a < b <= |text|
    && Balance(text, a, b) == 0
    && forall j :: a < j < b ==> Balance(text, a, j) > 0
  }

  /** The block a correct scan of a text returns. */
  ghost predicate FirstBlock(text: string, block: string) {
    exists a: nat, b: nat :: FirstOpening(text, a) && FirstClosing(text, a, b) && block == text[a..b]
  }

  /** `_extract_json`; `fenced` is what the fenced-block pattern captured, already stripped. */
  method ExtractJson(text: string, fenced: Option<string>) returns (found: Option<string>)
    ensures fenced.Some? ==> found == fenced
    ensures fenced.None? && found.Some? ==> FirstBlock(text, found.value)
    ensures fenced.None? && found.None? ==> forall block :: !FirstBlock(text, block)
  {
    if fenced.Some? {
      return fenced;
    }
    var depth: nat := 0;
    var start: Option<nat> := None;
    var inStr, escape := false, false;
    for i := 0 to |text|
      invariant ModeAfter(Outside, text[..i]) == (if inStr then Inside(escape) else Outside)
      invariant !inStr ==> !escape
      invariant depth == 0 <==> start.None?
      invariant start.None? ==> forall k :: 0 <= k < i && text[k] == '{' ==> !Bare(text, k)
      invariant start.Some? ==>
        && start.value < i && FirstOpening(text, start.value)
        && depth == Balance(text, start.value, i)
        && forall j :: start.value < j <= i ==> Balance(text, start.value, j) > 0
    {
      var ch := text[i];
      assert text[..i + 1][..i] == text[..i];
      if inStr {
        if escape {
          escape := false;
        } else if ch == '\\' {
          escape := true;
        } else if ch == '"' {
          inStr := false;
        }
      } else if ch == '"' {
        inStr := true;
      } else if ch == '{' {
        if depth == 0 {
          start := Some(i);
        }
        depth := depth + 1;
      } else if ch == '}' {
        if depth > 0 {
          depth := depth - 1;
          if depth == 0 && start.Some? {
            assert FirstClosing(text, start.value, i + 1);
            return Some(text[start.value..i + 1]);
          }
        }
      }
    }
    found := None;
  }

  /** There is at most one first block, so the scanner's contract leaves it no choice. */
  lemma FirstBlockUnique(text: string, p: string, q: string)
    requires FirstBlock(text, p) && FirstBlock(text, q)
    ensures p == q
  {
    var a: nat, b: nat :| FirstOpening(text, a) && FirstClosing(text, a, b) && p == text[a..b];
    var c: nat, d: nat :| FirstOpening(text, c) && FirstClosing(text, c, d) && q == text[c..d];
    assert a == c;
    assert b == d;
  }

  // ---------- JSON texts ----------

  /** Concrete JSON syntax (RFC 8259): every text of the grammar is the print of some value.
      `Padded` puts white space around a value, `pad` stands inside an empty container. */
  datatype Json =
    | Scalar(text: string)
    | Str(items: seq<StrItem>)
    | Arr(pad: string, elements: seq<Json>)
    | Obj(pad: string, members: seq<Member>)
    | Padded(before: string, value: Json, after: string)

  datatype Member = Member(before: string, name: seq<StrItem>, after: string, value: Json)

  /** A character of a string literal (section 7): itself, or a backslash escape. */
  datatype StrItem = Plain(c: char) | Escape(c: char) | Unicode(hex: string)

  predicate Blank(s: string) {
    forall c :: c in s ==> c in " \t\n\r"
  }

  predicate WfItem(item: StrItem) {
    match item
    case Plain(c) => c != '"' && c != '\\' && c as int >= 0x20
    case Escape(c) => c in "\"\\/bfnrt"
    case Unicode(hex) => |hex| == 4 && forall c :: c in hex ==> c in "0123456789abcdefABCDEF"
  }

  predicate WfItems(items: seq<StrItem>) {
    forall item :: item in items ==> WfItem(item)
  }

  /** Scalars cover `null`, `true`, `false` and every number. */
  predicate WfScalar(text: string) {
    text != "" && forall c :: c in text ==> c in "0123456789+-.eEnultrfas"
  }

  predicate Wf(v: Json)
    decreases v, 0
  {
    match v
    case Scalar(text) => WfScalar(text)
    case Str(items) => WfItems(items)
    case Arr(pad, elements) => Blank(pad) && forall i :: 0 <= i < |elements| ==> Wf(elements[i])
    case Obj(pad, members) => Blank(pad) && forall i :: 0 <= i < |members| ==> WfMember(members[i])
    case Padded(before, value, after) => Blank(before) && Wf(value) && Blank(after)
  }

  predicate WfMember(m: Member)
    decreases m, 1
  {
    Blank(m.before) && WfItems(m.name) && Blank(m.after) && Wf(m.value)
  }

  function PrintItem(item: StrItem): string {
    match item
    case Plain(c) => [c]
    case Escape(c) => ['\\', c]
    case Unicode(hex) => "\\u" + hex
  }

  function PrintItems(items: seq<StrItem>): string {
    if items == [] then "" else PrintItem(items[0]) + PrintItems(items[1..])
  }

  function PrintString(items: seq<StrItem>): string {
    "\"" + PrintItems(items) + "\""
  }

  function Print(v: Json): string
    decreases v, 0
  {
    match v
    case Scalar(text) => text
    case Str(items) => PrintString(items)
    case Arr(pad, elements) => "[" + pad + PrintElements(elements) + "]"
    case Obj(pad, members) => "{" + pad + PrintMembers(members) + "}"
    case Padded(before, value, after) => before + Print(value) + after
  }

  function PrintElements(elements: seq<Json>): string
    decreases elements, 0
  {
    if elements == [] then ""
    else Print(elements[0]) + (if |elements| > 1 then "," else "") + PrintElements(elements[1..])
  }

  function PrintMember(m: Member): string
    decreases m, 1
  {
    m.before + PrintString(m.name) + m.after + ":" + Print(m.value)
  }

  function PrintMembers(members: seq<Member>): string
    decreases members, 0
  {
    if members == [] then ""
    else PrintMember(members[0]) + (if |members| > 1 then "," else "") + PrintMembers(members[1..])
  }

  // ---------- The scanner undoes the printer ----------

  lemma {:induction false} ModeAfterConcat(mode: Mode, s: string, t: string)
    ensures ModeAfter(mode, s + t) == ModeAfter(ModeAfter(mode, s), t)
    decreases |t|
  {
    if t == "" {
      assert s + t == s;
    } else {
      assert (s + t)[..|s + t| - 1] == s + t[..|t| - 1];
      ModeAfterConcat(mode, s, t[..|t| - 1]);
    }
  }

  /** A piece of text after a bare prefix is read as if it stood alone. */
  lemma {:induction false} BalanceInside(prefix: string, piece: string, suffix: string, b: nat)
    requires ModeAfter(Outside, prefix) == Outside && b <= |piece|
    ensures Balance(prefix + piece + suffix, |prefix|, |prefix| + b) == Balance(piece, 0, b)
    decreases b
  {
    if b > 0 {
      BalanceInside(prefix, piece, suffix, b - 1);
      var whole := prefix + piece + suffix;
      assert whole[..|prefix| + b - 1] == prefix + piece[..b - 1];
      ModeAfterConcat(Outside, prefix, piece[..b - 1]);
    }
  }

  /** Text that leaves the scanner outside strings and never closes more braces than it opened. */
  ghost predicate Steady(text: string) {
    && ModeAfter(Outside, text) == Outside
    && Balance(text, 0, |text|) == 0
    && forall j :: 0 <= j <= |text| ==> Balance(text, 0, j) >= 0
  }

  lemma {:induction false} BalanceSplit(text: string, a: nat, b: nat, c: nat)
    requires a <= b <= c <= |text|
    ensures Balance(text, a, c) == Balance(text, a, b) + Balance(text, b, c)
    decreases c
  {
    if b < c {
      BalanceSplit(text, a, b, c - 1);
    }
  }

  lemma SteadyConcat(s: string, t: string)
    requires Steady(s) && Steady(t)
    ensures Steady(s + t)
  {
    ModeAfterConcat(Outside, s, t);
    assert "" + s + t == s + t && s + t + "" == s + t;
    forall j | 0 <= j <= |s + t| ensures Balance(s + t, 0, j) == if j <= |s| then Balance(s, 0, j) else Balance(t, 0, j - |s|) {
      if j <= |s| {
        BalanceInside("", s, t, j);
      } else {
        BalanceInside("", s, t, |s|);
        BalanceInside(s, t, "", j - |s|);
        BalanceSplit(s + t, 0, |s|, j);
      }
    }
  }

  /** Characters that mean nothing to the scanner. */
  ghost predicate Inert(s: string) {
    forall c :: c in s ==> c != '"' && c != '{' && c != '}'
  }

  lemma BlankInert(s: string)
    requires Blank(s) || WfScalar(s)
    ensures Inert(s)
  {}

  /** Text without quotes and braces is steady. */
  lemma PlainSteady(text: string)
    requires Inert(text)
    ensures Steady(text)
  {
    assert forall i :: 0 <= i < |text| ==> text[i] in text;
    forall j | 0 <= j <= |text| ensures ModeAfter(Outside, text[..j]) == Outside && Balance(text, 0, j) == 0 {
      PlainPrefix(text, j);
    }
    assert text[..|text|] == text;
  }

  lemma {:induction false} PlainPrefix(text: string, j: nat)
    requires j <= |text|
    requires forall i :: 0 <= i < |text| ==> text[i] != '"' && text[i] != '{' && text[i] != '}'
    ensures ModeAfter(Outside, text[..j]) == Outside && Balance(text, 0, j) == 0
  {
    if j > 0 {
      assert text[..j][..j - 1] == text[..j - 1];
      assert text[..j][j - 1] == text[j - 1];
      PlainPrefix(text, j - 1);
    }
  }

  /** Text that a string literal may contain: it never ends the literal. */
  ghost predicate KeepsInside(text: string) {
    && ModeAfter(Inside(false), text) == Inside(false)
    && forall j :: 0 <= j <= |text| ==> ModeAfter(Inside(false), text[..j]).Inside?
  }

  lemma KeepsInsideConcat(s: string, t: string)
    requires KeepsInside(s) && KeepsInside(t)
    ensures KeepsInside(s + t)
  {
    ModeAfterConcat(Inside(false), s, t);
    forall j | 0 <= j <= |s + t| ensures ModeAfter(Inside(false), (s + t)[..j]).Inside? {
      if j <= |s| {
        assert (s + t)[..j] == s[..j];
      } else {
        assert (s + t)[..j] == s + t[..j - |s|];
        ModeAfterConcat(Inside(false), s, t[..j - |s|]);
      }
    }
  }

  lemma {:induction false} OrdinaryKeepsInside(text: string)
    requires forall i :: 0 <= i < |text| ==> text[i] != '"' && text[i] != '\\'
    ensures KeepsInside(text)
  {
    if text != "" {
      var init := text[..|text| - 1];
      OrdinaryKeepsInside(init);
      forall j | 0 <= j <= |text| ensures ModeAfter(Inside(false), text[..j]).Inside? {
        assert j < |text| ==> text[..j] == init[..j];
        assert text[..|text|] == text;
      }
    }
  }

  lemma PairKeepsInside(c: char)
    ensures KeepsInside(['\\', c])
  {
    var text := ['\\', c];
    assert text[..1] == ['\\'] && text[..1][..0] == "" && text[..2] == text;
    assert ModeAfter(Inside(false), text[..1]) == Inside(true);
  }

  lemma ItemKeepsInside(item: StrItem)
    requires WfItem(item)
    ensures KeepsInside(PrintItem(item))
  {
    match item
    case Plain(c) => OrdinaryKeepsInside([c]);
    case Escape(c) => PairKeepsInside(c);
    case Unicode(hex) => UnicodeKeepsInside(hex);
  }

  lemma HexIsOrdinary(hex: string, i: nat)
    requires i < |hex| && forall c :: c in hex ==> c in "0123456789abcdefABCDEF"
    ensures hex[i] != '"' && hex[i] != '\\'
  {
    assert hex[i] in hex;
  }

  lemma UnicodeKeepsInside(hex: string)
    requires WfItem(Unicode(hex))
    ensures KeepsInside("\\u" + hex)
  {
    hide KeepsInside;
    forall i | 0 <= i < |hex| ensures hex[i] != '"' && hex[i] != '\\' {
      HexIsOrdinary(hex, i);
    }
    hide WfItem;
    PairKeepsInside('u');
    OrdinaryKeepsInside(hex);
    KeepsInsideConcat("\\u", hex);
  }

  lemma {:induction false} ItemsKeepInside(items: seq<StrItem>)
    requires WfItems(items)
    ensures KeepsInside(PrintItems(items))
  {
    if items == [] {
      OrdinaryKeepsInside("");
    } else {
      assert WfItem(items[0]);
      ItemKeepsInside(items[0]);
      ItemsKeepInside(items[1..]);
      KeepsInsideConcat(PrintItem(items[0]), PrintItems(items[1..]));
    }
  }

  lemma StringSteady(items: seq<StrItem>)
    requires WfItems(items)
    ensures Steady(PrintString(items))
  {
    var body, text := PrintItems(items), PrintString(items);
    ItemsKeepInside(items);
    forall j | 1 <= j <= |text| - 1 ensures ModeAfter(Outside, text[..j]).Inside? {
      assert text[..j] == "\"" + body[..j - 1];
      assert "\""[..0] == "";
      ModeAfterConcat(Outside, "\"", body[..j - 1]);
    }
    assert text[..|text| - 1] == "\"" + body;
    ModeAfterConcat(Outside, "\"", body);
    forall j | 0 <= j <= |text| ensures Balance(text, 0, j) == 0 {
      QuotedBalance(text, j);
    }
  }

  lemma {:induction false} QuotedBalance(text: string, j: nat)
    requires j <= |text| && |text| >= 2 && text[0] == '"' && text[|text| - 1] == '"'
    requires forall i :: 1 <= i <= |text| - 1 ==> ModeAfter(Outside, text[..i]).Inside?
    ensures Balance(text, 0, j) == 0
  {
    if j > 0 {
      QuotedBalance(text, j - 1);
    }
  }

  lemma {:induction false} ValueSteady(v: Json)
    requires Wf(v)
    ensures Steady(Print(v))
    decreases v, 1
  {
    match v
    case Scalar(text) =>
      BlankInert(text);
      PlainSteady(text);
    case Str(items) =>
      StringSteady(items);
    case Arr(_, _) =>
      ArraySteady(v);
    case Obj(_, _) =>
      ObjectSteady(v);
    case Padded(before, value, after) =>
      BlankInert(before);
      BlankInert(after);
      ValueSteady(value);
      SteadyBetween(before, Print(value), after);
  }

  lemma {:induction false} ArraySteady(v: Json)
    requires v.Arr? && Wf(v)
    ensures Steady(Print(v))
    decreases v, 0
  {
    BlankInert(v.pad);
    PlainSteady(v.pad);
    ElementsSteady(v.elements);
    SteadyConcat(v.pad, PrintElements(v.elements));
    SteadyBetween("[", v.pad + PrintElements(v.elements), "]");
    assert "[" + (v.pad + PrintElements(v.elements)) + "]" == Print(v);
  }

  lemma SteadyBetween(before: string, middle: string, after: string)
    requires Steady(middle)
    requires Inert(before) && Inert(after)
    ensures Steady(before + middle + after)
  {
    PlainSteady(before);
    PlainSteady(after);
    SteadyConcat(before, middle);
    SteadyConcat(before + middle, after);
  }

  lemma {:induction false} ElementsSteady(elements: seq<Json>)
    requires forall i :: 0 <= i < |elements| ==> Wf(elements[i])
    ensures Steady(PrintElements(elements))
    decreases elements, 0
  {
    if elements == [] {
      PlainSteady("");
    } else {
      var comma := if |elements| > 1 then "," else "";
      ValueSteady(elements[0]);
      PlainSteady(comma);
      ElementsSteady(elements[1..]);
      SteadyConcat(Print(elements[0]), comma);
      SteadyConcat(Print(elements[0]) + comma, PrintElements(elements[1..]));
    }
  }

  lemma {:induction false} MemberSteady(m: Member)
    requires WfMember(m)
    ensures Steady(PrintMember(m))
    decreases m, 0
  {
    BlankInert(m.before);
    BlankInert(m.after);
    PlainSteady(m.before);
    StringSteady(m.name);
    PlainSteady(m.after);
    PlainSteady(":");
    ValueSteady(m.value);
    SteadyConcat(m.before, PrintString(m.name));
    SteadyConcat(m.before + PrintString(m.name), m.after);
    SteadyConcat(m.before + PrintString(m.name) + m.after, ":");
    SteadyConcat(m.before + PrintString(m.name) + m.after + ":", Print(m.value));
  }

  lemma {:induction false} MembersSteady(members: seq<Member>)
    requires forall i :: 0 <= i < |members| ==> WfMember(members[i])
    ensures Steady(PrintMembers(members))
    decreases members, 0
  {
    if members == [] {
      PlainSteady("");
    } else {
      var comma := if |members| > 1 then "," else "";
      MemberSteady(members[0]);
      PlainSteady(comma);
      MembersSteady(members[1..]);
      SteadyConcat(PrintMember(members[0]), comma);
      SteadyConcat(PrintMember(members[0]) + comma, PrintMembers(members[1..]));
    }
  }

  /** An object opens a brace, stays open over its steady body, and closes with its last character. */
  lemma {:induction false} ObjectSteady(v: Json)
    requires v.Obj? && Wf(v)
    ensures Steady(Print(v)) && FirstClosing(Print(v), 0, |Print(v)|)
    decreases v, 0
  {
    var body, text := v.pad + PrintMembers(v.members), Print(v);
    BlankInert(v.pad);
    PlainSteady(v.pad);
    MembersSteady(v.members);
    SteadyConcat(v.pad, PrintMembers(v.members));
    assert text == "{" + body + "}";
    assert "{"[..0] == "" && ModeAfter(Outside, "{") == Outside;
    forall j | 1 <= j <= |text| - 1 ensures Balance(text, 0, j) == 1 + Balance(body, 0, j - 1) {
      BalanceSplit(text, 0, 1, j);
      assert text[..0] == "" && Balance(text, 0, 1) == 1;
      BalanceInside("{", body, "}", j - 1);
    }
    assert text[..|text| - 1] == "{" + body;
    ModeAfterConcat(Outside, "{", body);
  }

  /** Whatever precedes the object without a quote or an opening brace, and whatever follows it,
      the scan finds exactly the printed object. */
  lemma ScanUndoesPrint(prefix: string, v: Json, suffix: string)
    requires v.Obj? && Wf(v)
    requires forall c :: c in prefix ==> c != '"' && c != '{'
    ensures FirstBlock(prefix + Print(v) + suffix, Print(v))
    ensures forall block :: FirstBlock(prefix + Print(v) + suffix, block) ==> block == Print(v)
  {
    var printed := Print(v);
    var text := prefix + printed + suffix;
    ObjectSteady(v);
    forall i | 0 <= i < |prefix| ensures text[i] != '"' && text[i] != '{' {
      assert text[i] == prefix[i] && prefix[i] in prefix;
    }
    forall i | 0 <= i <= |prefix| ensures ModeAfter(Outside, text[..i]) == Outside {
      QuoteFree(text, i);
    }
    assert text[..|prefix|] == prefix;
    assert text[|prefix|] == printed[0] == '{';
    forall j | 0 <= j <= |printed| ensures Balance(text, |prefix|, |prefix| + j) == Balance(printed, 0, j) {
      BalanceInside(prefix, printed, suffix, j);
    }
    forall j | |prefix| < j < |prefix| + |printed| ensures Balance(text, |prefix|, j) > 0 {
      assert Balance(text, |prefix|, |prefix| + (j - |prefix|)) == Balance(printed, 0, j - |prefix|);
    }
    assert FirstOpening(text, |prefix|) && FirstClosing(text, |prefix|, |prefix| + |printed|);
    assert printed == text[|prefix|..|prefix| + |printed|];
    forall block | FirstBlock(text, block) ensures block == printed {
      FirstBlockUnique(text, block, printed);
    }
  }

  lemma {:induction false} QuoteFree(text: string, i: nat)
    requires i <= |text| && forall k :: 0 <= k < i ==> text[k] != '"'
    ensures ModeAfter(Outside, text[..i]) == Outside
  {
    if i > 0 {
      assert text[..i][..i - 1] == text[..i - 1];
      QuoteFree(text, i - 1);
    }
  }
}
