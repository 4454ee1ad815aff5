/** Citations in plain text: every function of citationtext/citation.go derives Markdown's
    protection afresh from the string it is given. Here is what that gives after an
    expansion: the protection carried along, and what the written markers add when they are
    labels of reference definitions. */
module CitationRewrite {
  import opened GoText
  import opened Markdown
  import opened MarkdownEdit
  import opened MarkdownLinks
  import opened MarkdownStable
  import opened Citation

  // ----- Texts and masks -----

  /** A text with its protection. */
  function Masked(lower: CaseMap, s: string): (t: Text)
    ensures |t| == |s|
  {
    var mask := Protect(lower, s);
    seq(|s|, i requires 0 <= i < |s| => Ch(s[i], mask[i]))
  }

  lemma {:induction false} MaskedChars(lower: CaseMap, s: string)
    ensures Chars(Masked(lower, s)) == s
  {
  }

  /** The cut that Scan makes of a string. */
  function Cut(lower: CaseMap, s: string): seq<Atom> {
    Scan(NEUTRAL, Masked(lower, s))
  }

  /** The protection a text carries. */
  function Mask(t: Text): (m: seq<bool>)
    ensures |m| == |t| && forall i :: 0 <= i < |t| ==> m[i] == t[i].protected
  {
    seq(|t|, i requires 0 <= i < |t| => t[i].protected)
  }

  lemma {:induction false} MaskAppend(a: Text, b: Text)
    ensures Mask(a + b) == Mask(a) + Mask(b)
  {
  }

  lemma {:induction false} CharsAppend(a: Text, b: Text)
    ensures Chars(a + b) == Chars(a) + Chars(b)
  {
  }

  /** A text carries the protection derived from its characters. */
  lemma {:induction false} MaskedIff(lower: CaseMap, t: Text)
    ensures Masked(lower, Chars(t)) == t <==> Protect(lower, Chars(t)) == Mask(t)
  {
    hide Protect;
    var t', m := Masked(lower, Chars(t)), Protect(lower, Chars(t));
    forall i | 0 <= i < |t| ensures t'[i] == Ch(t[i].c, m[i]) {}
    if t' == t {
      forall i | 0 <= i < |t| ensures m[i] == Mask(t)[i] { assert t'[i] == t[i]; }
    }
  }

  // ----- One group -----

  function Numerals(ns: seq<nat>): (labels: seq<string>)
    ensures |labels| == |ns| && forall i :: 0 <= i < |ns| ==> labels[i] == Itoa(ns[i])
  {
    seq(|ns|, i requires 0 <= i < |ns| => Itoa(ns[i]))
  }

  /** The single markers of a group, as the block of brackets they are. */
  lemma {:induction false} SinglesAreBlock(ns: seq<nat>)
    ensures Render(Singles(ns)) == Unprotected(Block(Numerals(ns)))
  {
    if ns != [] {
      assert Singles(ns) == [Single(ns[0])] + Singles(ns[1..]);
      assert Numerals(ns)[1..] == Numerals(ns[1..]);
      RenderCons(Single(ns[0]), Singles(ns[1..]));
      SinglesAreBlock(ns[1..]);
      assert "[" + Itoa(ns[0]) + "]" == Bracket(Itoa(ns[0]));
    }
  }

  lemma {:induction false} NumeralsInert(ns: seq<nat>)
    requires ns != []
    ensures Labels(Numerals(ns))
  {
    forall k | 0 <= k < |ns| ensures Inert(Numerals(ns)[k]) {
      assert AllDigits(Itoa(ns[k]));
    }
  }

  /** A recognised group is a plain bracket. */
  lemma {:induction false} GroupIsBracket(ctx: Context, raw: Text, v: Text)
    requires |raw| >= 2 && MarkAt(ctx, raw + v) == Some(|raw|)
    ensures Inert(Body(raw)) && Chars(raw) == Bracket(Body(raw))
  {
    GroupRun(ctx, raw, v);
    var n := |raw|;
    forall i | 0 <= i < n - 2 ensures InGroup(Body(raw)[i]) {
      assert Body(raw)[i] == raw[i + 1].c;
    }
    assert Inert(Body(raw));
    assert Chars(raw) == "[" + Body(raw) + "]" by {
      forall i | 0 <= i < n ensures Chars(raw)[i] == ("[" + Body(raw) + "]")[i] {
        if 0 < i < n - 1 { assert Body(raw)[i - 1] == raw[i].c; }
      }
    }
  }

  lemma {:induction false} GroupRun(ctx: Context, raw: Text, v: Text)
    requires |raw| >= 2 && MarkAt(ctx, raw + v) == Some(|raw|)
    ensures raw[0].c == '[' && raw[|raw| - 1].c == ']' && forall i :: 1 <= i < |raw| - 1 ==> InGroup(raw[i].c)
  {
    var t, n := raw + v, |raw|;
    assert Candidate(t) == Some(n);
    assert BodyRun(t[1..]) == n - 2;
    forall i | 1 <= i < n - 1 ensures InGroup(raw[i].c) {
      assert raw[i] == t[i] == t[1..][i - 1];
    }
    assert t[n - 1] == raw[n - 1] && t[0] == raw[0];
  }

  lemma {:induction false} CharsOfThree(a: Text, b: Text, c: Text)
    ensures Chars(a + b + c) == Chars(a) + Chars(b) + Chars(c)
  {
  }

  // ----- Writing single markers -----

  /** Everything from a position on protected. */
  function ProtectedFrom(t: Text, from: nat): (r: Text)
    ensures |r| == |t| && forall i :: 0 <= i < |t| ==> r[i] == Ch(t[i].c, t[i].protected || i >= from)
  {
    seq(|t|, i requires 0 <= i < |t| => Ch(t[i].c, t[i].protected || i >= from))
  }

  /** One marker written behind a text: if its number is the label of a definition, all from
      where its reference starts is protected. */
  function WriteSingle(lower: CaseMap, defs: set<string>, t: Text, n: nat): (r: Text)
    ensures |r| == |t| + |Itoa(n)| + 2
  {
    var out := t + Single(n).raw;
    if Lower(lower, Itoa(n)) in defs then ProtectedFrom(out, ReferenceStart(Chars(t), |t|)) else out
  }

  function WriteEach(lower: CaseMap, defs: set<string>, t: Text, ns: seq<nat>): Text
    decreases |ns|
  {
    if ns == [] then t else WriteEach(lower, defs, WriteSingle(lower, defs, t, ns[0]), ns[1..])
  }

  /** The text an expansion writes, with its protection. */
  function Rewrite(lower: CaseMap, defs: set<string>, pre: Text, a: seq<Atom>, pick: seq<bool>): Text
    requires |pick| == |a|
    decreases |a|
  {
    if a == [] then pre
    else Rewrite(lower, defs, HeadWritten(lower, defs, pre, a[0], pick[0]), a[1..], pick[1..])
  }

  function HeadWritten(lower: CaseMap, defs: set<string>, pre: Text, m: Atom, picked: bool): Text {
    if picked && m.Mark? then WriteEach(lower, defs, pre, Dedup(m.indices)) else pre + RenderAtom(m)
  }

  lemma {:induction false} SingleWritten(lower: CaseMap, defs: set<string>, t: Text, n: nat)
    ensures var r, l := WriteSingle(lower, defs, t, n), Itoa(n);
      && Chars(r) == Chars(t) + Bracket(l)
      && Mask(r) == Closed(Page(lower, Chars(t), Mask(t), defs), |t|, l, Mask(t))
  {
    hide ReferenceStart, Lower;
    var r, l, raw := WriteSingle(lower, defs, t, n), Itoa(n), Single(n).raw;
    CharsAppend(t, raw);
    MaskAppend(t, raw);
    assert Chars(raw) == Bracket(l);
    assert Mask(raw) == Flags(|l| + 2, false);
    assert Chars(r) == Chars(t + raw);
    if Lower(lower, l) in defs {
      var from := ReferenceStart(Chars(t), |t|);
      var m := MarkFrom(Mask(t), from, |t| + |l| + 2);
      forall i | 0 <= i < |r| ensures Mask(r)[i] == m[i] {
        assert Mask(r)[i] == ((t + raw)[i].protected || i >= from);
      }
    }
  }

  /** The same as the scan of the block of brackets. */
  lemma {:induction false} EachWritten(lower: CaseMap, defs: set<string>, t: Text, ns: seq<nat>)
    ensures var r := WriteEach(lower, defs, t, ns);
      && Chars(r) == Chars(t) + Block(Numerals(ns))
      && Mask(r) == Written(lower, defs, Chars(t), Numerals(ns), Mask(t))
    decreases |ns|
  {
    hide Closed, WriteSingle;
    if ns == [] {
      assert Chars(t) + "" == Chars(t);
    } else {
      var next, l := WriteSingle(lower, defs, t, ns[0]), Itoa(ns[0]);
      SingleWritten(lower, defs, t, ns[0]);
      EachWritten(lower, defs, next, ns[1..]);
      assert Numerals(ns)[1..] == Numerals(ns[1..]) && Numerals(ns)[0] == l;
      ConcatAssoc(Chars(t), Bracket(l), Block(Numerals(ns[1..])));
    }
  }

  /** A recognised group in a text that reads as it is: an unprotected plain bracket, in front
      of no link. */
  lemma {:induction false} GroupInText(lower: CaseMap, ctx: Context, pre: Text, raw: Text, v: Text)
    requires |raw| >= 2 && MarkAt(ctx, raw + v) == Some(|raw|)
    requires Masked(lower, Chars(pre + raw + v)) == pre + raw + v
    ensures var s := Chars(pre) + Bracket(Body(raw)) + Chars(v);
      && Chars(pre + raw + v) == s && Inert(Body(raw)) && |raw| == |Body(raw)| + 2 && NoLinkAhead(Chars(v))
      && Protect(lower, s) == Mask(pre + raw + v) && !Mask(pre + raw + v)[|pre|]
  {
    hide Protect, MarkAt, Masked;
    MarkFacts(ctx, raw, v);
    GroupIsBracket(ctx, raw, v);
    CharsOfThree(pre, raw, v);
    MaskedIff(lower, pre + raw + v);
    MaskOfThree(pre, raw, v);
  }

  /** Writing one group's single markers, and reading the new text: what was behind the group
      is as it was, and so are the definitions. */
  lemma {:induction false} GroupWritten(lower: CaseMap, ctx: Context, pre: Text, raw: Text, ns: seq<nat>, v: Text)
    requires |raw| >= 2 && MarkAt(ctx, raw + v) == Some(|raw|) && ns != [] && !Escaped(Chars(pre), |pre|)
    requires Masked(lower, Chars(pre + raw + v)) == pre + raw + v
    ensures var defs := Definitions(lower, Chars(pre + raw + v));
      var out := WriteEach(lower, defs, pre, ns) + v;
      Masked(lower, Chars(out)) == out && Definitions(lower, Chars(out)) == defs
  {
    hide Protect, Definitions, MarkAt, Masked, Escaped, Written, WriteEach, Block, Bracket, Inert, Labels, NoLinkAhead, Body, Numerals, Mask, Chars;
    GroupInText(lower, ctx, pre, raw, v);
    NumeralsInert(ns);
    MaskOfThree(pre, raw, v);
    EditCarries(lower, Chars(pre), Body(raw), Numerals(ns), Chars(v), Mask(pre), Mask(v), Mask(pre + raw + v));
    EachRead(lower, Definitions(lower, Chars(pre + raw + v)), pre, ns, v);
  }

  lemma {:induction false} EditCarries(lower: CaseMap, u: string, l: string, labels: seq<string>, v: string, left: seq<bool>, right: seq<bool>, m: seq<bool>)
    requires Inert(l) && Labels(labels) && NoLinkAhead(v) && !Escaped(u, |u|) && |left| == |u| < |m|
    requires Protect(lower, u + Bracket(l) + v) == m && !m[|u|] && m[..|u|] == left && m[|u| + |l| + 2..] == right
    ensures var defs := Definitions(lower, u + Bracket(l) + v);
      && Protect(lower, u + Block(labels) + v) == Written(lower, defs, u, labels, left) + right
      && Definitions(lower, u + Block(labels) + v) == defs
  {
    hide Protect, Definitions, Escaped, Written, Block, Inert, Labels;
    EditProtection(lower, u, l, labels, v);
  }

  /** Text written in front of v, when its mask is the one derived. */
  lemma {:induction false} EachRead(lower: CaseMap, defs: set<string>, pre: Text, ns: seq<nat>, v: Text)
    requires Protect(lower, Chars(pre) + Block(Numerals(ns)) + Chars(v)) == Written(lower, defs, Chars(pre), Numerals(ns), Mask(pre)) + Mask(v)
    ensures var out := WriteEach(lower, defs, pre, ns) + v;
      Masked(lower, Chars(out)) == out && Chars(out) == Chars(pre) + Block(Numerals(ns)) + Chars(v)
  {
    hide Protect, Masked, Written, WriteEach, Block;
    var b := WriteEach(lower, defs, pre, ns);
    EachWritten(lower, defs, pre, ns);
    CharsAppend(b, v);
    MaskAppend(b, v);
    MaskedIff(lower, b + v);
  }

  lemma {:induction false} MaskOfThree(a: Text, b: Text, c: Text)
    ensures var m := Mask(a + b + c); m[..|a|] == Mask(a) && m[|a| + |b|..] == Mask(c) && (b != [] ==> m[|a|] == b[0].protected)
  {
  }

  // ----- Any choice of groups -----

  /** An index whose single marker an expansion writes. */
  ghost predicate Writes(a: seq<Atom>, pick: seq<bool>, n: nat)
    requires |pick| == |a|
  {
    exists i :: 0 <= i < |a| && pick[i] && a[i].Mark? && n in a[i].indices
  }

  /** No written marker is the label of a reference definition of the text. */
  ghost predicate NoneDefined(lower: CaseMap, s: string, a: seq<Atom>, pick: seq<bool>)
    requires |pick| == |a|
  {
    forall n :: Writes(a, pick, n) ==> Lower(lower, Itoa(n)) !in Definitions(lower, s)
  }

  lemma {:induction false} NothingToExpand(pick: seq<bool>)
    requires |pick| == 0
    ensures ExpandBy([], pick) == []
  {
  }

  lemma {:induction false} ExpandableTail(a: seq<Atom>, pick: seq<bool>)
    requires Expandable(a, pick) && a != []
    ensures Expandable(a[1..], pick[1..]) && |pick| == |a| && (pick[0] ==> a[0].Mark? && a[0].indices != [])
  {
    forall i | 0 <= i < |a[1..]| && pick[1..][i] ensures a[1..][i].Mark? && a[1..][i].indices != [] {
      assert pick[i + 1] && a[i + 1] == a[1..][i];
    }
  }

  lemma {:induction false} WrittenTail(a: seq<Atom>, pick: seq<bool>)
    requires |pick| == |a| && a != []
    ensures forall n :: Writes(a[1..], pick[1..], n) ==> Writes(a, pick, n)
    ensures pick[0] && a[0].Mark? ==> forall n :: n in a[0].indices ==> Writes(a, pick, n)
  {
    forall n | Writes(a[1..], pick[1..], n) ensures Writes(a, pick, n) {
      var i :| 0 <= i < |a[1..]| && pick[1..][i] && a[1..][i].Mark? && n in a[1..][i].indices;
      assert pick[i + 1] && a[i + 1].Mark? && n in a[i + 1].indices;
    }
  }

  lemma {:induction false} DedupKeeps(ns: seq<nat>)
    ensures ns != [] ==> Dedup(ns) != []
    ensures forall n :: n in Dedup(ns) <==> n in ns
  {
  }

  lemma {:induction false} MarkerCloses(ctx: Context, raw: Text, v: Text)
    requires |raw| >= 2 && MarkAt(ctx, raw + v) == Some(|raw|)
    ensures raw[|raw| - 1].c == ']'
  {
    GroupIsBracket(ctx, raw, v);
    assert Chars(raw)[|raw| - 1] == ']';
  }

  lemma {:induction false} CutHere(pre: Text, x: Text, rest: Text)
    ensures pre + (x + rest) == pre + x + rest
  {
  }

  /** Written markers end in a bracket. */
  lemma {:induction false} EachCloses(lower: CaseMap, defs: set<string>, pre: Text, ns: seq<nat>)
    requires ns != []
    ensures var x := WriteEach(lower, defs, pre, ns); x != [] && x[|x| - 1].c == ']'
    decreases |ns|
  {
    hide WriteSingle;
    var next := WriteSingle(lower, defs, pre, ns[0]);
    SingleCloses(lower, defs, pre, ns[0]);
    if ns[1..] != [] {
      EachCloses(lower, defs, next, ns[1..]);
    }
  }

  lemma {:induction false} SingleCloses(lower: CaseMap, defs: set<string>, t: Text, n: nat)
    ensures var x := WriteSingle(lower, defs, t, n); x != [] && x[|x| - 1].c == ']'
  {
    hide Lower, ReferenceStart;
    var raw := Single(n).raw;
    assert (t + raw)[|t + raw| - 1] == raw[|raw| - 1];
  }

  lemma {:induction false} ClosedIsUnescaped(x: Text)
    requires x != [] && x[|x| - 1].c == ']'
    ensures !Escaped(Chars(x), |x|)
  {
    assert Chars(x)[|x| - 1] == ']';
  }

  lemma {:induction false} PlainEscapes(ctx: Context, pre: Text, ch: Ch)
    requires ctx.escaped <==> Escaped(Chars(pre), |pre|)
    ensures After(ctx, ch.c).escaped <==> Escaped(Chars(pre + [ch]), |pre| + 1)
  {
    var s := Chars(pre + [ch]);
    CharsAppend(pre, [ch]);
    EscapedBefore(Chars(pre), Chars([ch]), |pre|);
    assert s[|pre|] == ch.c;
  }

  /** The escape state in front of the rest, after the first atom in either form. */
  lemma {:induction false} EscapesCarry(lower: CaseMap, defs: set<string>, ctx: Context, pre: Text, a: seq<Atom>, picked: bool)
    requires Canonical(ctx, a) && a != [] && (ctx.escaped <==> Escaped(Chars(pre), |pre|))
    requires picked ==> a[0].Mark? && a[0].indices != []
    ensures var x := HeadWritten(lower, defs, pre, a[0], picked); HeadContext(ctx, a[0]).escaped <==> Escaped(Chars(x), |x|)
  {
    hide Canonical, MarkAt, WriteEach, Dedup, Escaped, Render;
    CanonicalHead(ctx, a);
    var m, x := a[0], HeadWritten(lower, defs, pre, a[0], picked);
    if m.Plain? {
      PlainEscapes(ctx, pre, m.ch);
    } else {
      if picked {
        DedupKeeps(m.indices);
        EachCloses(lower, defs, pre, Dedup(m.indices));
      } else {
        MarkerCloses(ctx, m.raw, Render(a[1..]));
        assert x[|x| - 1] == m.raw[|m.raw| - 1];
      }
      ClosedIsUnescaped(x);
    }
  }

  /** The theorem: the text that an expansion writes reads back with the protection that
      Rewrite gives it, and the same definitions. */
  lemma {:induction false} RewriteIsRead(lower: CaseMap, pre: Text, ctx: Context, a: seq<Atom>, pick: seq<bool>)
    requires Canonical(ctx, a) && Expandable(a, pick) && (ctx.escaped <==> Escaped(Chars(pre), |pre|))
    requires Masked(lower, Chars(pre + Render(a))) == pre + Render(a)
    ensures var defs := Definitions(lower, Chars(pre + Render(a)));
      var out := Rewrite(lower, defs, pre, a, pick);
      Masked(lower, Chars(out)) == out && Definitions(lower, Chars(out)) == defs
    decreases |a|
  {
    hide Masked, Definitions, Render, Canonical, MarkAt, Escaped, HeadWritten, Expandable;
    if a == [] {
      NothingRendered();
      assert pre + [] == pre;
    } else {
      var defs := Definitions(lower, Chars(pre + Render(a)));
      CanonicalHead(ctx, a);
      CutHere(pre, RenderAtom(a[0]), Render(a[1..]));
      ExpandableTail(a, pick);
      HeadStep(lower, pre, ctx, a, pick[0]);
      EscapesCarry(lower, defs, ctx, pre, a, pick[0]);
      RewriteIsRead(lower, HeadWritten(lower, defs, pre, a[0], pick[0]), HeadContext(ctx, a[0]), a[1..], pick[1..]);
    }
  }

  lemma {:induction false} NothingRendered()
    ensures Render([]) == []
  {
  }

  /** The first atom, expanded or not. */
  lemma {:induction false} HeadStep(lower: CaseMap, pre: Text, ctx: Context, a: seq<Atom>, picked: bool)
    requires Canonical(ctx, a) && a != [] && (ctx.escaped <==> Escaped(Chars(pre), |pre|))
    requires picked ==> a[0].Mark? && a[0].indices != []
    requires Masked(lower, Chars(pre + Render(a))) == pre + Render(a)
    ensures var defs := Definitions(lower, Chars(pre + Render(a)));
      var out := HeadWritten(lower, defs, pre, a[0], picked) + Render(a[1..]);
      Masked(lower, Chars(out)) == out && Definitions(lower, Chars(out)) == defs
  {
    hide Masked, Definitions, Render, Canonical, MarkAt, Escaped, WriteEach, Dedup;
    var m, rest := a[0], Render(a[1..]);
    CanonicalHead(ctx, a);
    CutHere(pre, RenderAtom(m), rest);
    if picked {
      MarkFacts(ctx, m.raw, rest);
      DedupKeeps(m.indices);
      GroupWritten(lower, ctx, pre, m.raw, Dedup(m.indices), rest);
    }
  }

  // ----- A rewritten text protects more -----

  /** The same characters, and at least the same protection. */
  predicate Hides(t: Text, t': Text) {
    |t| == |t'| && forall i :: 0 <= i < |t| ==> t[i].c == t'[i].c && (t[i].protected ==> t'[i].protected)
  }

  lemma {:induction false} HidesChars(t: Text, t': Text)
    requires Hides(t, t')
    ensures Chars(t) == Chars(t')
  {
  }

  lemma {:induction false} HidesAppend(t: Text, t': Text, v: Text)
    requires Hides(t, t')
    ensures Hides(t + v, t' + v)
  {
  }

  lemma {:induction false} HidesMore(t: Text, t': Text, t'': Text)
    requires Hides(t, t') && Hides(t', t'')
    ensures Hides(t, t'')
  {
  }

  lemma {:induction false} EachHides(lower: CaseMap, defs: set<string>, t: Text, ns: seq<nat>)
    ensures Hides(t + Render(Singles(ns)), WriteEach(lower, defs, t, ns))
    decreases |ns|
  {
    hide Hides, Render;
    if ns == [] {
      NothingRendered();
      assert Singles(ns) == [] && t + [] == t;
      HidesSelf(t);
    } else {
      var next, raw := WriteSingle(lower, defs, t, ns[0]), Single(ns[0]).raw;
      SingleHides(lower, defs, t, ns[0]);
      EachHides(lower, defs, next, ns[1..]);
      assert Singles(ns) == [Single(ns[0])] + Singles(ns[1..]);
      RenderCons(Single(ns[0]), Singles(ns[1..]));
      CutHere(t, raw, Render(Singles(ns[1..])));
      HidesAppend(t + raw, next, Render(Singles(ns[1..])));
      HidesMore(t + Render(Singles(ns)), next + Render(Singles(ns[1..])), WriteEach(lower, defs, t, ns));
    }
  }

  lemma {:induction false} HidesSelf(t: Text)
    ensures Hides(t, t)
  {
  }

  lemma {:induction false} SingleHides(lower: CaseMap, defs: set<string>, t: Text, n: nat)
    ensures Hides(t + Single(n).raw, WriteSingle(lower, defs, t, n))
  {
  }

  lemma {:induction false} ExpandHead(a: seq<Atom>, pick: seq<bool>)
    requires |pick| == |a| && a != []
    ensures Render(ExpandBy(a, pick))
         == (if pick[0] && a[0].Mark? then Render(Singles(Dedup(a[0].indices))) else RenderAtom(a[0])) + Render(ExpandBy(a[1..], pick[1..]))
  {
    var rest := ExpandBy(a[1..], pick[1..]);
    if pick[0] && a[0].Mark? {
      RenderAppend(Singles(Dedup(a[0].indices)), rest);
    } else {
      RenderCons(a[0], rest);
    }
  }

  lemma {:induction false} RewriteHides(lower: CaseMap, defs: set<string>, pre: Text, a: seq<Atom>, pick: seq<bool>)
    requires |pick| == |a|
    ensures Hides(pre + Render(ExpandBy(a, pick)), Rewrite(lower, defs, pre, a, pick))
    decreases |a|
  {
    hide Hides, Render, ExpandBy, WriteEach, Dedup;
    if a == [] {
      NothingToExpand(pick);
      NothingRendered();
      assert pre + [] == pre;
      HidesSelf(pre);
    } else {
      var next, rest := HeadWritten(lower, defs, pre, a[0], pick[0]), Render(ExpandBy(a[1..], pick[1..]));
      RewriteHides(lower, defs, next, a[1..], pick[1..]);
      ExpandHead(a, pick);
      var x := if pick[0] && a[0].Mark? then Render(Singles(Dedup(a[0].indices))) else RenderAtom(a[0]);
      CutHere(pre, x, rest);
      HeadHides(lower, defs, pre, a[0], pick[0]);
      HidesAppend(pre + x, next, rest);
      HidesMore(pre + x + rest, next + rest, Rewrite(lower, defs, pre, a, pick));
    }
  }

  lemma {:induction false} HeadHides(lower: CaseMap, defs: set<string>, pre: Text, m: Atom, picked: bool)
    ensures Hides(pre + if picked && m.Mark? then Render(Singles(Dedup(m.indices))) else RenderAtom(m),
                  HeadWritten(lower, defs, pre, m, picked))
  {
    hide Hides, Render, WriteEach;
    if picked && m.Mark? {
      EachHides(lower, defs, pre, Dedup(m.indices));
    } else {
      HidesSelf(pre + RenderAtom(m));
    }
  }

  // ----- It protects the same exactly without defined markers -----

  lemma {:induction false} EachPlain(lower: CaseMap, defs: set<string>, t: Text, ns: seq<nat>)
    requires forall k :: 0 <= k < |ns| ==> Lower(lower, Itoa(ns[k])) !in defs
    ensures WriteEach(lower, defs, t, ns) == t + Render(Singles(ns))
    decreases |ns|
  {
    hide Render, Lower;
    if ns == [] {
      NothingRendered();
      assert Singles(ns) == [] && t + [] == t;
    } else {
      EachPlain(lower, defs, t + Single(ns[0]).raw, ns[1..]);
      assert Singles(ns) == [Single(ns[0])] + Singles(ns[1..]);
      RenderCons(Single(ns[0]), Singles(ns[1..]));
      CutHere(t, Single(ns[0]).raw, Render(Singles(ns[1..])));
    }
  }

  lemma {:induction false} RewritePlain(lower: CaseMap, defs: set<string>, pre: Text, a: seq<Atom>, pick: seq<bool>)
    requires |pick| == |a| && forall n :: Writes(a, pick, n) ==> Lower(lower, Itoa(n)) !in defs
    ensures Rewrite(lower, defs, pre, a, pick) == pre + Render(ExpandBy(a, pick))
    decreases |a|
  {
    hide Render, ExpandBy, WriteEach, Dedup, Lower, Writes;
    if a == [] {
      NothingToExpand(pick);
      NothingRendered();
    } else {
      WrittenTail(a, pick);
      var x := if pick[0] && a[0].Mark? then Render(Singles(Dedup(a[0].indices))) else RenderAtom(a[0]);
      if pick[0] && a[0].Mark? {
        DedupKeeps(a[0].indices);
        EachPlain(lower, defs, pre, Dedup(a[0].indices));
      }
      RewritePlain(lower, defs, pre + x, a[1..], pick[1..]);
      ExpandHead(a, pick);
      CutHere(pre, x, Render(ExpandBy(a[1..], pick[1..])));
    }
  }

  /** A place that is protected afterwards and was not carried so. */
  predicate Gained(t: Text, t': Text, q: nat) {
    q < |t| && q < |t'| && !t[q].protected && t'[q].protected
  }

  lemma {:induction false} GainedMore(t: Text, t': Text, t'': Text, q: nat)
    requires Hides(t, t') && Hides(t', t'') && (Gained(t, t', q) || Gained(t', t'', q))
    ensures Gained(t, t'', q)
  {
  }

  lemma {:induction false} GainedAppend(t: Text, t': Text, v: Text, q: nat)
    requires Gained(t, t', q)
    ensures Gained(t + v, t' + v, q)
  {
  }

  /** A written marker with a defined label is protected. */
  lemma {:induction false} EachGains(lower: CaseMap, defs: set<string>, t: Text, ns: seq<nat>, k: nat) returns (q: nat)
    requires k < |ns| && Lower(lower, Itoa(ns[k])) in defs
    ensures Gained(t + Render(Singles(ns)), WriteEach(lower, defs, t, ns), q)
    decreases |ns|
  {
    hide Hides, Render, Gained, Lower;
    var next, raw, rest := WriteSingle(lower, defs, t, ns[0]), Single(ns[0]).raw, Render(Singles(ns[1..]));
    SingleHides(lower, defs, t, ns[0]);
    EachHides(lower, defs, next, ns[1..]);
    assert Singles(ns) == [Single(ns[0])] + Singles(ns[1..]);
    RenderCons(Single(ns[0]), Singles(ns[1..]));
    CutHere(t, raw, rest);
    HidesAppend(t + raw, next, rest);
    if k == 0 {
      q := SingleGains(lower, defs, t, ns[0]);
      GainedAppend(t + raw, next, rest, q);
    } else {
      q := EachGains(lower, defs, next, ns[1..], k - 1);
    }
    GainedMore(t + raw + rest, next + rest, WriteEach(lower, defs, t, ns), q);
  }

  lemma {:induction false} SingleGains(lower: CaseMap, defs: set<string>, t: Text, n: nat) returns (q: nat)
    requires Lower(lower, Itoa(n)) in defs
    ensures Gained(t + Single(n).raw, WriteSingle(lower, defs, t, n), q)
  {
    hide ReferenceStart, Lower;
    q := |t|;
    assert (t + Single(n).raw)[q] == Single(n).raw[0];
  }

  lemma {:induction false} RewriteGains(lower: CaseMap, defs: set<string>, pre: Text, a: seq<Atom>, pick: seq<bool>, n: nat) returns (q: nat)
    requires |pick| == |a| && Writes(a, pick, n) && Lower(lower, Itoa(n)) in defs
    ensures Gained(pre + Render(ExpandBy(a, pick)), Rewrite(lower, defs, pre, a, pick), q)
    decreases |a|
  {
    hide Hides, Render, ExpandBy, WriteEach, Dedup, Lower, Gained;
    var next, rest := HeadWritten(lower, defs, pre, a[0], pick[0]), Render(ExpandBy(a[1..], pick[1..]));
    var x := if pick[0] && a[0].Mark? then Render(Singles(Dedup(a[0].indices))) else RenderAtom(a[0]);
    ExpandHead(a, pick);
    CutHere(pre, x, rest);
    HeadHides(lower, defs, pre, a[0], pick[0]);
    HidesAppend(pre + x, next, rest);
    RewriteHides(lower, defs, next, a[1..], pick[1..]);
    if pick[0] && a[0].Mark? && n in a[0].indices {
      DedupKeeps(a[0].indices);
      var k :| 0 <= k < |Dedup(a[0].indices)| && Dedup(a[0].indices)[k] == n;
      q := EachGains(lower, defs, pre, Dedup(a[0].indices), k);
      GainedAppend(pre + x, next, rest, q);
    } else {
      var i :| 0 <= i < |a| && pick[i] && a[i].Mark? && n in a[i].indices;
      assert pick[1..][i - 1] && a[1..][i - 1] == a[i];
      q := RewriteGains(lower, defs, next, a[1..], pick[1..], n);
    }
    GainedMore(pre + x + rest, next + rest, Rewrite(lower, defs, pre, a, pick), q);
  }

  // ----- The theorem on strings -----

  /** Deriving protection afresh from an expanded string gives exactly what Rewrite computes
      from the cut of the old string and its definitions. It is what the expansion carried
      along if and only if no written marker is the label of a reference definition, and
      it never protects less. */
  lemma {:induction false} ExpansionProtection(lower: CaseMap, s: string, pick: seq<bool>)
    requires Expandable(Cut(lower, s), pick)
    ensures var a, defs := Cut(lower, s), Definitions(lower, s);
      var carried, out := Render(ExpandBy(a, pick)), Rewrite(lower, defs, [], a, pick);
      && Masked(lower, Chars(carried)) == out && Definitions(lower, Chars(carried)) == defs
      && Hides(carried, out)
      && (out == carried <==> NoneDefined(lower, s, a, pick))
  {
    hide Masked, Definitions, Render, MarkAt, ExpandBy, Scan, Lower, Rewrite, Hides, Writes;
    var a, t, defs := Cut(lower, s), Masked(lower, s), Definitions(lower, s);
    var carried := Render(ExpandBy(a, pick));
    MaskedChars(lower, s);
    RenderScan(NEUTRAL, t);
    assert Canonical(NEUTRAL, a);
    assert [] + t == t && [] + carried == carried && Chars([]) == "";
    NotEscapedAtStart();
    RewriteIsRead(lower, [], NEUTRAL, a, pick);
    RewriteHides(lower, defs, [], a, pick);
    HidesChars(carried, Rewrite(lower, defs, [], a, pick));
    if NoneDefined(lower, s, a, pick) {
      RewritePlain(lower, defs, [], a, pick);
    } else {
      var n :| Writes(a, pick, n) && Lower(lower, Itoa(n)) in Definitions(lower, s);
      var q := RewriteGains(lower, defs, [], a, pick, n);
    }
  }

  lemma {:induction false} NotEscapedAtStart()
    ensures !Escaped("", 0)
  {
  }
}
