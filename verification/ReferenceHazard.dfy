/** A text on which rewriting a citation group loses the citations: a reference definition
    whose label an expansion writes. Before the rewriting it names no bracket of the text,
    afterwards it protects the new markers and the markers in front of them. */
module ReferenceHazard {
  import opened GoText
  import opened Markdown
  import opened MarkdownEdit
  import opened MarkdownLinks
  import opened MarkdownStable
  import opened Citation
  import opened CitationCluster
  import opened CitationStrict
  import opened CitationRewrite
  import opened CitationString

  /** "\n\n[3]: x" */
  const TAIL := "\n\n" + Bracket("3") + ": x"

  lemma {:induction false} TailIs()
    ensures TAIL == "\n\n[3]: x"
  {
  }

  function Fresh(n: nat): seq<bool> {
    Flags(n, false)
  }

  // ----- Code and definitions -----

  lemma {:induction false} NoTicks(s: string, base: seq<bool>, i: nat)
    requires |base| == |s| && i <= |s| && forall k :: 0 <= k < |s| ==> s[k] != '`'
    ensures SpanMask(s, base, i) == base[i..]
    decreases |s| - i
  {
    if i < |s| {
      NoTicks(s, base, i + 1);
      assert base[i..] == [base[i]] + base[i + 1..];
    }
  }

  /** No line starts with a blank, and nothing in the text opens a fence. */
  predicate NoCode(s: string) {
    forall k :: 0 <= k < |s| ==> Harmless(s, k)
  }

  predicate Harmless(s: string, k: nat)
    requires k < |s|
  {
    s[k] !in "\t`~" && (s[k] == ' ' ==> k > 0 && s[k - 1] != '\n')
  }

  lemma {:induction false} LineEnds(s: string)
    requires LineLen(s) < |s|
    ensures LineLen(s) > 0 && s[LineLen(s) - 1] == '\n'
  {
    if s[0] != '\n' {
      LineEnds(s[1..]);
    }
  }

  lemma {:induction false} TrimKeepsLeft(s: string, c: char)
    requires c !in s
    ensures c !in TrimSpaceLeft(s)
  {
    if s != [] && IsSpace(s[0]) {
      TrimKeepsLeft(s[1..], c);
    }
  }

  lemma {:induction false} TrimKeeps(s: string, c: char)
    requires c !in s
    ensures c !in TrimSpaceRight(s)
  {
    if s != [] && IsSpace(s[|s| - 1]) {
      TrimKeeps(s[..|s| - 1], c);
    }
  }

  lemma {:induction false} PlainLine(st: LineState, raw: string)
    requires st.fence.None? && raw != [] && NoCode(raw)
    ensures !LineMasked(st, raw) && LineAfter(st, raw).fence.None?
  {
    hide TrimSpaceLeft, TrimSpaceRight, ListStart;
    forall c | c == '`' || c == '~' ensures c !in TrimSpace(raw) {
      assert c !in raw by { forall k | 0 <= k < |raw| ensures raw[k] != c { assert Harmless(raw, k); } }
      TrimKeepsLeft(raw, c);
      TrimKeeps(TrimSpaceLeft(raw), c);
    }
    var line := TrimSpace(raw);
    if line != [] { assert line[0] in line; }
    assert FenceRun(line) == 0;
    assert Harmless(raw, 0);
    assert !HasPrefix(raw, "    ") by { if |raw| >= 4 { assert raw[..4][0] == raw[0] && "    "[0] == ' '; } }
    assert !HasPrefix(raw, "\t") by { assert raw[..1][0] == raw[0] && "\t"[0] == '\t'; }
  }

  lemma {:induction false} PlainLines(s: string, st: LineState)
    requires st.fence.None? && NoCode(s)
    ensures LineMask(s, st) == Fresh(|s|)
    decreases |s|
  {
    hide LineMasked, LineAfter;
    if s != [] {
      var n := LineLen(s);
      if n < |s| { LineEnds(s); }
      forall k | 0 <= k < n ensures Harmless(s[..n], k) { assert Harmless(s, k); }
      forall k | 0 <= k < |s| - n ensures Harmless(s[n..], k) { assert Harmless(s, n + k); }
      PlainLine(st, s[..n]);
      PlainLines(s[n..], LineAfter(st, s[..n]));
      assert Fresh(|s|) == Fresh(n) + Fresh(|s| - n);
    }
  }

  /** A block of labels without blanks. */
  predicate Tight(labels: seq<string>) {
    Labels(labels) && forall k :: 0 <= k < |labels| ==> forall i :: 0 <= i < |labels[k]| ==> labels[k][i] !in " \t~"
  }

  lemma {:induction false} TightBlock(labels: seq<string>)
    requires Tight(labels)
    ensures forall i :: 0 <= i < |Block(labels)| ==> Block(labels)[i] !in " \t`~"
  {
    var b, rest := Bracket(labels[0]), Block(labels[1..]);
    assert Inert(labels[0]);
    if |labels| > 1 {
      LabelsTail(labels);
      forall k | 0 <= k < |labels[1..]| ensures forall i :: 0 <= i < |labels[1..][k]| ==> labels[1..][k][i] !in " \t~" { assert labels[1..][k] == labels[k + 1]; }
      TightBlock(labels[1..]);
    }
    forall i | 0 <= i < |b + rest| ensures (b + rest)[i] !in " \t`~" {
      if i >= |b| { assert (b + rest)[i] == rest[i - |b|]; }
    }
  }

  lemma {:induction false} BlockCode(labels: seq<string>)
    requires Tight(labels)
    ensures CodeMask(Block(labels) + TAIL) == Fresh(|Block(labels)| + 8)
  {
    hide Block, LineMask, SpanMask, Tight;
    var b := Block(labels);
    var s := b + TAIL;
    TailIs();
    TightBlock(labels);
    forall k | 0 <= k < |s| ensures Harmless(s, k) {
      if k >= |b| { assert s[k] == TAIL[k - |b|]; }
      if k > |b| { assert s[k - 1] == TAIL[k - 1 - |b|]; }
    }
    PlainLines(s, START);
    NoTicks(s, LineMask(s, START), 0);
  }

  lemma {:induction false} OneLine(s: string)
    requires '\n' !in s
    ensures LineLen(s + "") == |s|
  {
    LineLenAppend(s, "");
  }

  lemma {:induction false} LastLine(lower: CaseMap)
    ensures Definitions(lower, "[3]: x") == {"3"}
  {
    var last := "[3]: x";
    OneLine(last);
    assert last + "" == last;
    DefinitionsSplit(lower, last, "");
    InertLabelLen("3", ": x");
    assert last[1..] == "3" + ("]" + ": x");
    assert DefinedBy(last) == Some("3");
    assert Folds(lower);
    assert Lower(lower, "3") == "3";
  }

  lemma {:induction false} BlockDefines(lower: CaseMap, labels: seq<string>)
    requires Labels(labels)
    ensures Definitions(lower, Block(labels) + TAIL) == {"3"}
  {
    hide Definitions, Block, Labels, Lower;
    TailIs();
    var last := "[3]: x";
    DefinitionsLine(lower, "", labels, TAIL);
    assert "" + Block(labels) + TAIL == Block(labels) + TAIL;
    assert LineLen(TAIL) == 1 && TAIL[1..] == "\n" + last && LineLen("\n" + last) == 1;
    DefinitionsSplit(lower, "\n", last);
    LastLine(lower);
  }

  // ----- The scan -----

  /** A lone bracket naming a definition is protected, and nothing in front of it. */
  lemma {:induction false} LoneProtected(p: Page, lo: nat, l: string, done: seq<bool>)
    requires BracketAt(p, lo, l) && |done| == lo && lo > 0 && p.s[lo - 1] != ']' && Lower(p.lower, l) in p.defs
    ensures LinkMask(p, lo, [], done) == LinkMask(p, lo + |l| + 2, [], done + Flags(|l| + 2, true))
  {
    hide LinkMask, Escaped, Lower, BracketAt;
    BracketPassed(p, lo, l, [], done);
    assert done[..lo] == done;
  }

  function PageOfBlock(lower: CaseMap, labels: seq<string>): (p: Page)
    ensures |p.base| == |p.s| == |Block(labels)| + 8
  {
    TailIs();
    Page(lower, Block(labels) + TAIL, Fresh(|Block(labels)| + 8), {"3"})
  }

  lemma {:induction false} ProtectIs(lower: CaseMap, labels: seq<string>)
    requires Tight(labels)
    ensures Protect(lower, Block(labels) + TAIL) == LinkMask(PageOfBlock(lower, labels), 0, [], [])
  {
    hide LinkMask, CodeMask, Definitions, Block, Lower;
    BlockCode(labels);
    BlockDefines(lower, labels);
  }

  /** Behind the brackets only the definition itself is protected. */
  lemma {:induction false} TailProtected(lower: CaseMap, labels: seq<string>, done: seq<bool>)
    requires Labels(labels) && |done| == |Block(labels)|
    ensures LinkMask(PageOfBlock(lower, labels), |done|, [], done) == done + (Fresh(2) + (Flags(3, true) + Fresh(3)))
  {
    hide LinkMask, Escaped, PageOfBlock, Lower, BracketAt;
    var p, n := PageOfBlock(lower, labels), |done|;
    TailPlace(lower, labels);
    LinkWalk(p, n, 2, [], done);
    var d := done + Fresh(2);
    NumeralsLower(lower);
    LoneProtected(p, n + 2, "3", d);
    var e := d + Flags(3, true);
    LinkWalk(p, n + 5, 3, [], e);
    LinkEnd(p, [], e + Fresh(3));
    assert e + Fresh(3) == done + (Fresh(2) + (Flags(3, true) + Fresh(3)));
  }

  lemma {:induction false} TailChars(lower: CaseMap, labels: seq<string>)
    ensures var p, n := PageOfBlock(lower, labels), |Block(labels)|;
      && p.lower == lower && p.defs == {"3"} && |p.base| == |p.s| == n + 8
      && (forall k :: n <= k < n + 8 ==> !p.base[k])
      && p.s[n] == '\n' && p.s[n + 1] == '\n' && p.s[n + 2] == '[' && p.s[n + 3] == '3'
      && p.s[n + 4] == ']' && p.s[n + 5] == ':' && p.s[n + 6] == ' ' && p.s[n + 7] == 'x'
  {
    hide Block;
    TailIs();
  }

  /** Where the definition stands in the page of a block. */
  lemma {:induction false} TailPlace(lower: CaseMap, labels: seq<string>)
    requires Labels(labels)
    ensures var p, n := PageOfBlock(lower, labels), |Block(labels)|;
      && p.lower == lower && p.defs == {"3"} && |p.base| == |p.s| == n + 8 && BracketAt(p, n + 2, "3")
      && p.s[n + 1] != ']' && forall k :: n <= k < n + 2 || n + 5 <= k < n + 8 ==> !p.base[k] && p.s[k] != '[' && p.s[k] != ']'
  {
    hide Escaped, PageOfBlock, Block, Labels;
    TailChars(lower, labels);
    var p, n := PageOfBlock(lower, labels), |Block(labels)|;
    assert p.s[n + 3..n + 4] == "3";
    NotEscapedBehind(p.s, n + 2);
  }

  lemma {:induction false} LinkEnd(p: Page, opens: seq<nat>, done: seq<bool>)
    requires |p.base| == |p.s| == |done| && Opens(opens, |p.s|)
    ensures LinkMask(p, |p.s|, opens, done) == done
  {
  }

  lemma {:induction false} NotEscapedBehind(s: string, k: nat)
    requires 0 < k <= |s| && s[k - 1] != '\\'
    ensures !Escaped(s, k)
  {
  }

  lemma {:induction false} PageAsGap(lower: CaseMap, labels: seq<string>)
    ensures var g := Gap("", [], TAIL, Fresh(8)); Fits(g) && PageOf(lower, g, Block(labels), {"3"}) == PageOfBlock(lower, labels)
  {
    TailIs();
    var n := |Block(labels)|;
    assert "" + Block(labels) + TAIL == Block(labels) + TAIL;
    assert [] + Fresh(n) + Fresh(8) == Fresh(n + 8);
  }

  lemma {:induction false} NothingWritten(lower: CaseMap, u: string, labels: seq<string>, done: seq<bool>)
    requires |done| == |u| && forall k :: 0 <= k < |labels| ==> Lower(lower, labels[k]) != "3"
    ensures Written(lower, {"3"}, u, labels, done) == done + Fresh(|Block(labels)|)
    decreases |labels|
  {
    hide Lower;
    if labels == [] {
      assert done + [] == done;
    } else {
      NothingWritten(lower, u + Bracket(labels[0]), labels[1..], done + Fresh(|labels[0]| + 2));
    }
  }

  /** Groups whose own labels name nothing stay free. */
  lemma {:induction false} GroupsFree(lower: CaseMap, labels: seq<string>)
    requires Tight(labels) && forall k :: 0 <= k < |labels| ==> Lower(lower, labels[k]) != "3"
    ensures Protect(lower, Block(labels) + TAIL) == Fresh(|Block(labels)|) + (Fresh(2) + (Flags(3, true) + Fresh(3)))
  {
    hide LinkMask, Block, Protect, PageOf, PageOfBlock, Written, Lower, Fits;
    var n := |Block(labels)|;
    ProtectIs(lower, labels);
    PageAsGap(lower, labels);
    TailIs();
    BlockPassed(lower, Gap("", [], TAIL, Fresh(8)), labels, {"3"}, [], []);
    NothingWritten(lower, "", labels, []);
    assert [] + Fresh(n) == Fresh(n);
    TailProtected(lower, labels, Fresh(n));
  }

  // ----- Reading the failing text -----

  lemma {:induction false} BodyRunOfGroup(d: string, v: Text)
    requires (forall i :: 0 <= i < |d| ==> InGroup(d[i])) && v != [] && !InGroup(v[0].c)
    ensures BodyRun(Unprotected(d) + v) == |d|
  {
    var t := Unprotected(d) + v;
    if d == [] {
      assert t == v;
    } else {
      assert t[1..] == Unprotected(d[1..]) + v;
      BodyRunOfGroup(d[1..], v);
    }
  }

  const GROUP := Unprotected("[2,3]")

  lemma {:induction false} PairIndices()
    ensures GroupIndices("2,3") == [2, 3] && !AllDigits("2,3")
  {
    assert "2,3"[1..] == ",3" && ",3"[1..] == "3" && "3"[1..] == "";
    assert Parts("3") == ["3"] by { assert ['3'] + "" == "3"; assert Parts("") == [""]; assert [""][1..] == []; }
    assert Parts(",3") == ["", "3"];
    assert Parts("2,3") == ["2", "3"] by { assert ["", "3"][1..] == ["3"]; assert ['2'] + "" == "2"; }
    DigitItem("2", 2);
    DigitItem("3", 3);
    assert ["2", "3"][1..] == ["3"] && ["3"][1..] == [];
    assert [] + Range(2, 2) == [2] && [2] + Range(3, 3) == [2, 3];
    assert Indices([], [2, 3]) == [2, 3];
    assert Indices(["3"], [2]) == [2, 3];
    assert "2,3"[1] == ',';
  }

  lemma {:induction false} DigitItem(s: string, n: nat)
    requires |s| == 1 && IsDigit(s[0]) && n == s[0] as int - '0' as int
    ensures Item(Trim(s)) == Some((n, n))
  {
    DigitsTrim(s);
    DigitsRun(s);
    assert s[..0] == [] && s[..1] == s;
    assert Atoi(s) == n;
  }

  lemma {:induction false} GroupBody()
    ensures Body(GROUP) == "2,3"
  {
    var b, d := Body(GROUP), "2,3";
    assert "[2,3]"[1] == '2' && "[2,3]"[2] == ',' && "[2,3]"[3] == '3';
    assert |b| == 3 && b[0] == d[0] && b[1] == d[1] && b[2] == d[2];
  }

  lemma {:induction false} GroupMark(v: Text)
    requires NotLink(v)
    ensures MarkAt(NEUTRAL, GROUP + v) == Some(5) && MarkOf(GROUP) == Mark(GROUP, [2, 3], true)
  {
    var t, close := GROUP + v, [Ch(']', false)] + v;
    assert t[1..] == Unprotected("2,3") + close;
    BodyRunOfGroup("2,3", close);
    assert Chars(t[1..][..3]) == "2,3";
    assert TrimLeft("2,3") == "2,3";
    assert t[..5] == GROUP;
    GroupBody();
    PairIndices();
    assert TrimRight("2,3") == "2,3" && |Trim("2,3")| == 3;
    assert v != [] ==> t[5] == v[0];
  }

  predicate AllPlain(a: seq<Atom>) {
    forall i :: 0 <= i < |a| ==> a[i].Plain?
  }

  /** Where every bracket is protected there is no marker. */
  lemma {:induction false} NoMarks(ctx: Context, t: Text)
    requires forall i :: 0 <= i < |t| && t[i].c == '[' ==> t[i].protected
    ensures AllPlain(Scan(ctx, t))
    decreases |t|
  {
    if t != [] {
      assert MarkAt(ctx, t).None?;
      NoMarks(After(ctx, t[0].c), t[1..]);
    }
  }

  lemma {:induction false} PlainsSayNothing(a: seq<Atom>, near: bool, valid: Evidence)
    requires AllPlain(a)
    ensures Guarded(a, near, valid) && !Cited(a, near) && !MarkAhead(a) && Expanded(a, near, valid) == a
  {
    if a != [] {
      PlainsSayNothing(a[1..], NearAfter(near, a[0]), valid);
      ExpandedUnfold(a, near, valid);
    }
  }

  /** The text after the brackets, with its definition protected. */
  function Tail(): (t: Text)
    ensures |t| == 8 && Chars(t) == TAIL
  {
    TailIs();
    var m := Fresh(2) + (Flags(3, true) + Fresh(3));
    seq(8, i requires 0 <= i < 8 => Ch(TAIL[i], m[i]))
  }

  lemma {:induction false} TailPlain()
    ensures AllPlain(Scan(NEUTRAL, Tail())) && NotLink(Tail())
  {
    TailIs();
    NoMarks(NEUTRAL, Tail());
  }

  lemma {:induction false} MaskedBlock(lower: CaseMap, labels: seq<string>, flag: bool)
    requires Protect(lower, Block(labels) + TAIL) == Flags(|Block(labels)|, flag) + (Fresh(2) + (Flags(3, true) + Fresh(3)))
    ensures var t, b := Masked(lower, Block(labels) + TAIL), Block(labels);
      t[|b|..] == Tail() && |t| == |b| + 8 && forall i :: 0 <= i < |b| ==> t[i] == Ch(b[i], flag)
  {
    hide Protect, Block;
    TailIs();
    var t, b := Masked(lower, Block(labels) + TAIL), Block(labels);
    var m := Flags(|b|, flag) + (Fresh(2) + (Flags(3, true) + Fresh(3)));
    forall i | 0 <= i < 8 ensures t[|b| + i] == Tail()[i] {
      assert m[|b| + i] == (Fresh(2) + (Flags(3, true) + Fresh(3)))[i];
    }
  }

  // ----- The failing text -----

  const FAILING := "[2,3][2,3]" + TAIL
  const REWRITTEN := "[2][3][2][3]" + TAIL

  lemma {:induction false} GroupsBlock()
    ensures Block(["2,3", "2,3"]) == "[2,3][2,3]" && Tight(["2,3", "2,3"])
  {
    assert ["2,3", "2,3"][1..] == ["2,3"] && ["2,3"][1..] == [];
    assert Block(["2,3"]) == Bracket("2,3") + "" == "[2,3]";
    assert Block(["2,3", "2,3"]) == "[2,3]" + "[2,3]";
  }

  /** The cut of the failing text: two groups. */
  lemma {:induction false} FailingCut(lower: CaseMap)
    ensures var g := Mark(GROUP, [2, 3], true); Cut(lower, FAILING) == [g, g] + Scan(NEUTRAL, Tail())
  {
    hide Protect, Scan;
    GroupsBlock();
    GroupsFree(lower, ["2,3", "2,3"]) by {
      assert |Lower(lower, "2,3")| == 3;
    }
    MaskedBlock(lower, ["2,3", "2,3"], false);
    var t := Masked(lower, FAILING);
    TailPlain();
    assert t == GROUP + (GROUP + Tail());
    GroupMark(GROUP + Tail());
    GroupMark(Tail());
    ScanOfMark(NEUTRAL, GROUP, GROUP + Tail());
    ScanOfMark(NEUTRAL, GROUP, Tail());
  }

  lemma {:induction false} GroupsBacked(rest: seq<Atom>, valid: Evidence)
    requires AllPlain(rest) && valid(2) && valid(3)
    ensures var g := Mark(GROUP, [2, 3], true); var a := [g, g] + rest;
      Guarded(a, false, valid) && Cited(a, false) && Expanded(a, false, valid) == Singles([2, 3]) + (Singles([2, 3]) + rest)
  {
    hide Dedup;
    var g := Mark(GROUP, [2, 3], true);
    var a := [g, g] + rest;
    assert a[1..] == [g] + rest && a[1..][1..] == rest;
    var ns: seq<nat> := [2, 3];
    assert AllBacked(valid, ns) by { forall i | 0 <= i < 2 ensures valid(ns[i]) {} }
    PlainsSayNothing(rest, true, valid);
    ExpandedUnfold(a, false, valid);
    ExpandedUnfold(a[1..], true, valid);
    PairDedup();
  }

  lemma {:induction false} PairDedup()
    ensures Dedup([2, 3]) == [2, 3]
  {
    var one: seq<nat>, two: seq<nat> := [2], [2, 3];
    assert two[..1] == one && one[..0] == [];
    assert Dedup([]) == [];
    assert Dedup(one) == [2];
  }

  lemma {:induction false} ByteLenAtMost(s: string)
    ensures ByteLen(s) <= 4 * |s|
  {
    if s != [] {
      ByteLenAtMost(s[1..]);
    }
  }

  lemma {:induction false} PairSingles()
    ensures Render(Singles([2, 3])) == Unprotected("[2][3]")
  {
    SinglesAreBlock([2, 3]);
    var ns: seq<nat> := [2, 3];
    assert Itoa(2) == "2" && Itoa(3) == "3";
    assert Numerals(ns) == ["2", "3"];
    assert ["2", "3"][1..] == ["3"] && ["3"][1..] == [];
    assert Block(["3"]) == Bracket("3") + "" == "[3]";
    assert Block(["2", "3"]) == "[2]" + "[3]" == "[2][3]";
  }

  lemma {:induction false} FailingRewrites(lower: CaseMap, valid: Evidence)
    requires valid(2) && valid(3)
    ensures CanonicalizeAdjacentOf(lower, FAILING, valid) == REWRITTEN
  {
    hide Protect, Scan, Masked, ByteLen, Singles, Expanded, Render, Chars, Tail;
    var rest, s2 := Scan(NEUTRAL, Tail()), Singles([2, 3]);
    FailingCut(lower);
    TailPlain();
    GroupsBacked(rest, valid);
    RenderScan(NEUTRAL, Tail());
    PairSingles();
    RenderAppend(s2, rest);
    RenderAppend(s2, s2 + rest);
    RewrittenText();
    MaskedChars(lower, FAILING);
  }

  lemma {:induction false} RewrittenText()
    ensures var out := Unprotected("[2][3]") + (Unprotected("[2][3]") + Tail());
      Chars(out) == REWRITTEN && ByteLen(REWRITTEN) <= MAX_EXPANSION_BYTES
  {
    var out := Unprotected("[2][3]") + (Unprotected("[2][3]") + Tail());
    CharsAppend(Unprotected("[2][3]"), Tail());
    CharsAppend(Unprotected("[2][3]"), Unprotected("[2][3]") + Tail());
    assert Chars(Unprotected("[2][3]")) == "[2][3]";
    assert "[2][3]" + ("[2][3]" + TAIL) == REWRITTEN;
    ByteLenAtMost(REWRITTEN);
    TailIs();
  }

  // ----- Reading the rewritten text -----

  /** Writing [2][3] behind anything: the definition protects both. */
  lemma {:induction false} PairWritten(lower: CaseMap, pre: Text)
    requires pre == [] || pre[|pre| - 1].c == ']'
    ensures var r := WriteEach(lower, {"3"}, pre, [2, 3]);
      |r| == |pre| + 6 && r[..|pre|] == pre && r[|r| - 1].c == ']' && forall i :: |pre| <= i < |r| ==> r[i].protected
  {
    hide ReferenceStart, Lower;
    NumeralsLower(lower);
    PairSteps(lower, pre);
    var t := pre + Single(2).raw;
    assert Itoa(2) == "2" && Itoa(3) == "3";
    CharsAppend(pre, Single(2).raw);
    assert Chars(Single(2).raw) == Bracket("2");
    ReferenceBack(Chars(pre), "2");
    assert (t + Single(3).raw)[..|pre|] == pre && (t + Single(3).raw)[|pre| + 5] == Single(3).raw[2];
  }

  lemma {:induction false} PairSteps(lower: CaseMap, pre: Text)
    ensures WriteEach(lower, {"3"}, pre, [2, 3])
         == var t := pre + Single(2).raw; ProtectedFrom(t + Single(3).raw, ReferenceStart(Chars(t), |t|))
  {
    hide ReferenceStart, Lower;
    NumeralsLower(lower);
    var one: seq<nat>, two: seq<nat> := [3], [2, 3];
    assert two[1..] == one && one[1..] == [];
    assert Itoa(2) == "2" && Itoa(3) == "3";
    var t := WriteSingle(lower, {"3"}, pre, 2);
    assert WriteEach(lower, {"3"}, pre, two) == WriteEach(lower, {"3"}, t, one) == WriteEach(lower, {"3"}, WriteSingle(lower, {"3"}, t, 3), []);
  }

  lemma {:induction false} ReferenceBack(u: string, l: string)
    requires Inert(l) && (u == "" || u[|u| - 1] == ']')
    ensures ReferenceStart(u + Bracket(l), |u| + |l| + 2) == |u|
  {
    var s := u + Bracket(l);
    assert s + "" == s && !Escaped(u, |u|);
    OpenOfBracket(u, l, "", |l|);
    assert s[|u| + |l| + 1] == ']';
  }

  lemma {:induction false} PlainsWritten(lower: CaseMap, defs: set<string>, pre: Text, a: seq<Atom>, pick: seq<bool>)
    requires AllPlain(a) && |pick| == |a|
    ensures Rewrite(lower, defs, pre, a, pick) == pre + Render(a)
    decreases |a|
  {
    if a != [] {
      PlainsWritten(lower, defs, pre + [a[0].ch], a[1..], pick[1..]);
      CutHere(pre, [a[0].ch], Render(a[1..]));
    }
  }

  /** A text of protected brackets in front of the tail has no marker. */
  lemma {:induction false} ProtectedInFront(t: Text)
    requires forall i :: 0 <= i < |t| ==> t[i].protected
    ensures AllPlain(Scan(NEUTRAL, t + Tail()))
  {
    TailIs();
    var all := t + Tail();
    forall i | 0 <= i < |all| && all[i].c == '[' ensures all[i].protected {
      if i >= |t| { assert all[i] == Tail()[i - |t|] && Chars(Tail())[i - |t|] == TAIL[i - |t|]; }
    }
    NoMarks(NEUTRAL, all);
  }

  /** One group [2,3] after `pre`, expanded or kept, among the atoms of a cut. */
  lemma {:induction false} GroupRewritten(lower: CaseMap, pre: Text, rest: seq<Atom>, pick: seq<bool>)
    requires |pick| == |rest| + 1 && pick[0] && (pre == [] || pre[|pre| - 1].c == ']')
    requires forall i :: 0 <= i < |pre| ==> pre[i].protected
    ensures var next := WriteEach(lower, {"3"}, pre, [2, 3]);
      && Rewrite(lower, {"3"}, pre, [Mark(GROUP, [2, 3], true)] + rest, pick) == Rewrite(lower, {"3"}, next, rest, pick[1..])
      && next != [] && next[|next| - 1].c == ']' && forall i :: 0 <= i < |next| ==> next[i].protected
  {
    hide WriteEach, Dedup;
    var a, next := [Mark(GROUP, [2, 3], true)] + rest, WriteEach(lower, {"3"}, pre, [2, 3]);
    assert a[1..] == rest;
    PairDedup();
    PairWritten(lower, pre);
    forall i | 0 <= i < |next| ensures next[i].protected {
      if i < |pre| { assert next[i] == next[..|pre|][i]; }
    }
  }

  lemma {:induction false} DefinesThree(lower: CaseMap)
    ensures Definitions(lower, FAILING) == {"3"} && Definitions(lower, STRICT) == {"3"}
  {
    hide Definitions, Block, Tight;
    GroupsBlock();
    OneGroupBlock();
    BlockDefines(lower, ["2,3", "2,3"]);
    BlockDefines(lower, ["2,3"]);
  }

  lemma {:induction false} RewrittenHasNoMarker(lower: CaseMap, valid: Evidence)
    requires valid(2) && valid(3)
    ensures AllPlain(Cut(lower, REWRITTEN))
  {
    hide Protect, Scan, Masked, Definitions, Rewrite, Render, Expanded, Cluster, WriteEach, CanonicalizeAdjacentOf;
    var rest, g := Scan(NEUTRAL, Tail()), Mark(GROUP, [2, 3], true);
    var pick := AdjacentPick(lower, FAILING, valid);
    FailingCut(lower);
    TailPlain();
    assert [g, g] + rest == [g] + ([g] + rest);
    BothPicked(rest, valid);
    DefinesThree(lower);
    GroupRewritten(lower, [], [g] + rest, pick);
    var next := WriteEach(lower, {"3"}, [], [2, 3]);
    GroupRewritten(lower, next, rest, pick[1..]);
    var last := WriteEach(lower, {"3"}, next, [2, 3]);
    PlainsWritten(lower, {"3"}, last, rest, pick[1..][1..]);
    RenderScan(NEUTRAL, Tail());
    assert Reread(lower, FAILING, pick) == last + Tail();
    ProtectedInFront(last);
    FailingRewrites(lower, valid);
    AdjacentReads(lower, FAILING, valid);
    FailingChanges();
  }

  lemma {:induction false} FailingChanges()
    ensures REWRITTEN != FAILING
  {
    assert |REWRITTEN| != |FAILING|;
  }

  lemma {:induction false} BothPicked(rest: seq<Atom>, valid: Evidence)
    requires valid(2) && valid(3)
    ensures var g := Mark(GROUP, [2, 3], true); var pick := Cluster([g, g] + rest, false, valid); pick[0] && pick[1..][0]
  {
    var g := Mark(GROUP, [2, 3], true);
    var a := [g, g] + rest;
    assert a[1..] == [g] + rest;
    var ns: seq<nat> := [2, 3];
    assert AllBacked(valid, ns) by { forall i | 0 <= i < 2 ensures valid(ns[i]) {} }
  }

  lemma {:induction false} FailingAccepted(lower: CaseMap, valid: Evidence)
    requires valid(2) && valid(3)
    ensures ValidAdjacentOf(lower, FAILING, valid, true)
  {
    hide Masked, Scan;
    FailingCut(lower);
    TailPlain();
    GroupsBacked(Scan(NEUTRAL, Tail()), valid);
  }

  lemma {:induction false} NoMarkerRefused(lower: CaseMap, s: string, valid: Evidence)
    requires AllPlain(Cut(lower, s))
    ensures !ValidAdjacentOf(lower, s, valid, true)
  {
    PlainsSayNothing(Cut(lower, s), false, valid);
  }

  lemma {:induction false} FailingIs()
    ensures FAILING == "[2,3][2,3]\n\n[3]: x" && REWRITTEN == "[2][3][2][3]\n\n[3]: x"
  {
    TailIs();
  }

  /** The condition is needed: a draft that passes the guard, whose canonical form is
      refused by the same guard with the same evidence. */
  lemma {:induction false} RewritingLosesCitations(lower: CaseMap, valid: Evidence)
    requires valid(2) && valid(3)
    ensures FAILING == "[2,3][2,3]\n\n[3]: x" && REWRITTEN == "[2][3][2][3]\n\n[3]: x"
    ensures ValidAdjacentOf(lower, FAILING, valid, true)
    ensures CanonicalizeAdjacentOf(lower, FAILING, valid) == REWRITTEN
    ensures !ValidAdjacentOf(lower, REWRITTEN, valid, true)
  {
    hide ValidAdjacentOf, CanonicalizeAdjacentOf, Cut;
    FailingIs();
    FailingAccepted(lower, valid);
    FailingRewrites(lower, valid);
    RewrittenHasNoMarker(lower, valid);
    NoMarkerRefused(lower, REWRITTEN, valid);
  }

  // ----- The strict boundary -----

  const STRICT := "[2,3]" + TAIL
  const STRICT_REWRITTEN := "[2][3]" + TAIL

  lemma {:induction false} OneGroupBlock()
    ensures Block(["2,3"]) == "[2,3]" && Tight(["2,3"])
  {
    assert ["2,3"][1..] == [];
    assert Block(["2,3"]) == Bracket("2,3") + "" == "[2,3]";
  }

  lemma {:induction false} NumeralsLower(lower: CaseMap)
    ensures Lower(lower, "3") == "3" && Lower(lower, "2") == "2"
  {
    assert Folds(lower);
  }

  lemma {:induction false} PlainsSayNothingStrictly(a: seq<Atom>, valid: Evidence, maxIndex: int)
    requires AllPlain(a)
    ensures StrictlyBacked(a, valid, maxIndex) && !HasEvidence(a, maxIndex) && AllResolved(a, valid, maxIndex) && StrictExpanded(a, maxIndex) == a
  {
    if a != [] {
      PlainsSayNothingStrictly(a[1..], valid, maxIndex);
      StrictUnfold(a, maxIndex);
    }
  }

  lemma {:induction false} StrictCut(lower: CaseMap)
    ensures Cut(lower, STRICT) == [Mark(GROUP, [2, 3], true)] + Scan(NEUTRAL, Tail())
  {
    hide Protect, Scan;
    OneGroupBlock();
    GroupsFree(lower, ["2,3"]) by {
      assert |Lower(lower, "2,3")| == 3;
    }
    MaskedBlock(lower, ["2,3"], false);
    TailPlain();
    assert Masked(lower, STRICT) == GROUP + Tail();
    GroupMark(Tail());
    ScanOfMark(NEUTRAL, GROUP, Tail());
  }

  lemma {:induction false} StrictRewrites(lower: CaseMap, valid: Evidence, maxIndex: int)
    requires valid(2) && valid(3) && maxIndex >= 3
    ensures CanonicalizeOf(lower, STRICT, valid, maxIndex) == Some(STRICT_REWRITTEN)
    ensures ValidOf(lower, STRICT, valid, maxIndex, true)
  {
    hide Protect, Scan, Masked, ByteLen, Tail, Dedup;
    var rest, g := Scan(NEUTRAL, Tail()), Mark(GROUP, [2, 3], true);
    var a, ns: seq<nat> := [g] + rest, [2, 3];
    StrictCut(lower);
    TailPlain();
    assert a[1..] == rest && g.indices[0] == 2;
    assert AllBacked(valid, ns) by { forall i | 0 <= i < 2 ensures valid(ns[i]) {} }
    PlainsSayNothingStrictly(rest, valid, maxIndex);
    StrictUnfold(a, maxIndex);
    PairDedup();
    RenderScan(NEUTRAL, Tail());
    PairSingles();
    RenderAppend(Singles([2, 3]), rest);
    CharsAppend(Unprotected("[2][3]"), Tail());
    assert Chars(Unprotected("[2][3]")) == "[2][3]";
    MaskedChars(lower, STRICT);
    assert ByteLen(STRICT_REWRITTEN) <= MAX_EXPANSION_BYTES by { ByteLenAtMost(STRICT_REWRITTEN); TailIs(); }
  }

  /** The strict boundary loses its evidence the same way. */
  lemma {:induction false} StrictRewritingLosesEvidence(lower: CaseMap, valid: Evidence, maxIndex: int)
    requires valid(2) && valid(3) && maxIndex >= 3
    ensures STRICT == "[2,3]\n\n[3]: x" && STRICT_REWRITTEN == "[2][3]\n\n[3]: x"
    ensures CanonicalizeOf(lower, STRICT, valid, maxIndex) == Some(STRICT_REWRITTEN)
    ensures ValidOf(lower, STRICT, valid, maxIndex, true) && !ValidOf(lower, STRICT_REWRITTEN, valid, maxIndex, true)
  {
    hide Masked, Scan, ValidSpec, CanonicalizeOf;
    TailIs();
    StrictRewrites(lower, valid, maxIndex);
    StrictRewrittenHasNoMarker(lower, valid, maxIndex);
    NoMarkerNoEvidence(lower, STRICT_REWRITTEN, valid, maxIndex);
  }

  lemma {:induction false} StrictRewrittenHasNoMarker(lower: CaseMap, valid: Evidence, maxIndex: int)
    requires valid(2) && valid(3) && maxIndex >= 3
    ensures AllPlain(Cut(lower, STRICT_REWRITTEN))
  {
    hide Protect, Scan, Masked, Definitions, Rewrite, Render, StrictExpanded, StrictPick, WriteEach, CanonicalizeOf;
    var rest, g := Scan(NEUTRAL, Tail()), Mark(GROUP, [2, 3], true);
    var pick := StrictPickOf(lower, STRICT, maxIndex);
    StrictCut(lower);
    TailPlain();
    GroupPicked(rest, maxIndex);
    DefinesThree(lower);
    GroupRewritten(lower, [], rest, pick);
    var last := WriteEach(lower, {"3"}, [], [2, 3]);
    PlainsWritten(lower, {"3"}, last, rest, pick[1..]);
    RenderScan(NEUTRAL, Tail());
    assert Reread(lower, STRICT, pick) == last + Tail();
    ProtectedInFront(last);
    StrictRewrites(lower, valid, maxIndex);
    StrictReads(lower, STRICT, valid, maxIndex);
  }

  lemma {:induction false} GroupPicked(rest: seq<Atom>, maxIndex: int)
    requires maxIndex >= 3
    ensures StrictPick([Mark(GROUP, [2, 3], true)] + rest, maxIndex)[0]
  {
    var g := Mark(GROUP, [2, 3], true);
    assert g.indices[0] == 2;
    assert ([g] + rest)[0] == g;
  }

  lemma {:induction false} NoMarkerNoEvidence(lower: CaseMap, s: string, valid: Evidence, maxIndex: int)
    requires AllPlain(Cut(lower, s))
    ensures !ValidOf(lower, s, valid, maxIndex, true)
  {
    PlainsSayNothingStrictly(Cut(lower, s), valid, maxIndex);
  }
}
