/** The link phase around a rewritten citation group, and the stability of protection as a
    whole: it changes exactly when a written label is a reference definition. */
module MarkdownLinks {
  import opened GoText
  import opened Markdown
  import opened MarkdownEdit

  // ----- Definitions -----

  lemma {:induction false} LabelLenAppend(a: string, b: string)
    requires '\n' !in a
    ensures LabelLen(a + b) == if ']' in a then LabelLen(a) else |a| + LabelLen(b)
  {
    if a == [] {
      assert a + b == b;
    } else {
      assert (a + b)[1..] == a[1..] + b && a == [a[0]] + a[1..];
      LabelLenAppend(a[1..], b);
    }
  }

  /** What follows the first bracket of a block. */
  function AfterFirst(labels: seq<string>, rest: string): string
    requires labels != []
  {
    Block(labels[1..]) + rest
  }

  lemma {:induction false} FirstBracket(labels: seq<string>, rest: string)
    requires Labels(labels)
    ensures Block(labels) + rest == Labelled(labels[0], AfterFirst(labels, rest))
    ensures AfterFirst(labels, rest) == [] ==> rest == []
    ensures AfterFirst(labels, rest) != [] ==> AfterFirst(labels, rest)[0] == '[' || (rest != [] && AfterFirst(labels, rest)[0] == rest[0])
  {
    hide Inert, Brackets;
    var tail := Block(labels[1..]);
    ConcatAssoc(Bracket(labels[0]), tail, rest);
    Unbracket(labels[0], tail + rest);
    if |labels| > 1 {
      LabelsTail(labels);
      BlockBrackets(labels[1..]);
      TailStarts(tail, rest);
    } else {
      assert labels[1..] == [] && tail + rest == rest;
    }
  }

  lemma {:induction false} Unbracket(l: string, after: string)
    ensures Bracket(l) + after == Labelled(l, after)
  {
  }

  lemma {:induction false} LabelsTail(labels: seq<string>)
    requires Labels(labels) && |labels| > 1
    ensures Labels(labels[1..])
  {
    forall k | 0 <= k < |labels[1..]| ensures Inert(labels[1..][k]) { assert Inert(labels[k + 1]); }
  }

  lemma {:induction false} TailStarts(tail: string, rest: string)
    requires Brackets(tail)
    ensures tail + rest != [] && (tail + rest)[0] == '['
  {
  }

  lemma {:induction false} InertLabelLen(l: string, rest: string)
    requires Inert(l)
    ensures LabelLen(l + ("]" + rest)) == |l|
  {
    assert '\n' !in l && ']' !in l;
    LabelLenAppend(l, "]" + rest);
  }

  /** A bracket with a label, and what follows it. */
  function Labelled(l: string, after: string): (w: string)
    ensures w != [] && w[0] == '['
  {
    "[" + (l + ("]" + after))
  }

  /** A line defines what it defines in front of a bracket without a colon, or nothing. */
  lemma {:induction false} DefinedInFront(u: string, l: string, after: string)
    requires '\n' !in u && Inert(l) && (after == [] || after[0] != ':')
    ensures DefinedBy(u + Labelled(l, after)) == DefinedBy(u)
  {
    hide DefinedBy, Labelled;
    var w := Labelled(l, after);
    CharRunAt(u, w, ' ');
    var i := CharRun(u, ' ');
    if i == |u| {
      BracketDefinesNot(u, l, after);
    } else if ']' in u[i + 1..] {
      LabelInFront(u, w);
    } else {
      LabelRunsInto(u, l, after);
    }
  }

  lemma {:induction false} BracketDefinesNot(u: string, l: string, after: string)
    requires CharRun(u, ' ') == |u| && CharRun(u + Labelled(l, after), ' ') == |u| && Inert(l) && (after == [] || after[0] != ':')
    ensures DefinedBy(u + Labelled(l, after)) == DefinedBy(u) == None
  {
    InertLabelLen(l, after);
    assert (u + Labelled(l, after))[|u| + 1..] == l + ("]" + after);
  }

  /** The label ends in front of the block. */
  lemma {:induction false} LabelInFront(u: string, w: string)
    requires w != [] && w[0] == '[' && '\n' !in u && CharRun(u + w, ' ') == CharRun(u, ' ') < |u| && ']' in u[CharRun(u, ' ') + 1..]
    ensures DefinedBy(u + w) == DefinedBy(u)
  {
    hide LabelIn, CharRun;
    var i := CharRun(u, ' ');
    assert (u + w)[i] == u[i] && (u + w)[i + 1..] == u[i + 1..] + w;
    LabelInFrontOf(u[i + 1..], w);
  }

  lemma {:induction false} LabelInFrontOf(x: string, w: string)
    requires w != [] && w[0] == '[' && ']' in x && '\n' !in x
    ensures LabelIn(x + w) == LabelIn(x)
  {
    LabelLenAppend(x, w);
    LabelEnds(x);
    var n := LabelLen(x);
    assert (x + w)[..n] == x[..n];
  }

  /** The label reaches into the block, whose bracket is followed by no colon. */
  lemma {:induction false} LabelRunsInto(u: string, l: string, after: string)
    requires '\n' !in u && Inert(l) && (after == [] || after[0] != ':')
    requires CharRun(u + Labelled(l, after), ' ') == CharRun(u, ' ') < |u| && ']' !in u[CharRun(u, ' ') + 1..]
    ensures DefinedBy(u + Labelled(l, after)) == DefinedBy(u) == None
  {
    hide LabelIn, CharRun, Labelled;
    var i, w := CharRun(u, ' '), Labelled(l, after);
    assert (u + w)[i] == u[i] && (u + w)[i + 1..] == u[i + 1..] + w;
    LabelInto(u[i + 1..], l, after);
  }

  lemma {:induction false} LabelInto(x: string, l: string, after: string)
    requires '\n' !in x && ']' !in x && Inert(l) && (after == [] || after[0] != ':')
    ensures LabelIn(x + Labelled(l, after)) == LabelIn(x) == None
  {
    var w, rest := Labelled(l, after), l + ("]" + after);
    LabelLenAppend(x, w);
    InertLabelLen(l, after);
    LabelLenAppend("[", rest);
    LabelLenAppend(x, "");
    assert x + "" == x;
    assert (x + w)[|x| + 1 + |l| + 1..] == after;
  }

  lemma {:induction false} LabelInert(labels: seq<string>, k: nat)
    requires Labels(labels) && k < |labels|
    ensures Inert(labels[k])
  {
  }

  lemma {:induction false} LabelEnds(x: string)
    requires ']' in x && '\n' !in x
    ensures LabelLen(x) < |x| && x[LabelLen(x)] == ']'
  {
    if x[0] != ']' {
      assert x == [x[0]] + x[1..];
      LabelEnds(x[1..]);
    }
  }

  lemma {:induction false} DefinitionsEdit(lower: CaseMap, u: string, l1: seq<string>, l2: seq<string>, v: string)
    requires Labels(l1) && Labels(l2) && (v == [] || v[0] != ':')
    ensures Definitions(lower, u + Block(l1) + v) == Definitions(lower, u + Block(l2) + v)
    decreases |u|
  {
    if '\n' in u {
      var n := LineLen(u);
      DefinitionsFirst(lower, u, Block(l1) + v);
      DefinitionsFirst(lower, u, Block(l2) + v);
      ConcatAssoc(u, Block(l1), v);
      ConcatAssoc(u, Block(l2), v);
      ConcatAssoc(u[n..], Block(l1), v);
      ConcatAssoc(u[n..], Block(l2), v);
      DefinitionsEdit(lower, u[n..], l1, l2, v);
    } else {
      DefinitionsLine(lower, u, l1, v);
      DefinitionsLine(lower, u, l2, v);
    }
  }

  lemma {:induction false} DefinitionsFirst(lower: CaseMap, u: string, w: string)
    requires '\n' in u
    ensures var n := LineLen(u); Definitions(lower, u + w) == LabelOf(lower, u[..n]) + Definitions(lower, u[n..] + w)
  {
    var n := LineLen(u);
    LineLenAppend(u, w);
    assert (u + w)[..n] == u[..n] && (u + w)[n..] == u[n..] + w;
  }

  lemma {:induction false} DefinitionsSplit(lower: CaseMap, a: string, rest: string)
    requires a != [] && LineLen(a + rest) == |a|
    ensures Definitions(lower, a + rest) == LabelOf(lower, a) + Definitions(lower, rest)
  {
    assert (a + rest)[..|a|] == a && (a + rest)[|a|..] == rest;
  }

  lemma {:induction false} DefinedBeforeBlock(u: string, labels: seq<string>, rest: string)
    requires '\n' !in u && Labels(labels) && (rest == [] || rest[0] != ':')
    ensures DefinedBy(u + Block(labels) + rest) == DefinedBy(u)
  {
    hide DefinedBy;
    FirstBracket(labels, rest);
    ConcatAssoc(u, Block(labels), rest);
    LabelInert(labels, 0);
    DefinedInFront(u, labels[0], AfterFirst(labels, rest));
  }

  lemma {:induction false} DefinitionsLine(lower: CaseMap, u: string, labels: seq<string>, v: string)
    requires '\n' !in u && Labels(labels) && (v == [] || v[0] != ':')
    ensures Definitions(lower, u + Block(labels) + v) == LabelOf(lower, u) + Definitions(lower, v[LineLen(v)..])
  {
    hide Block, Labels, DefinedBy, LineLen, Inert;
    var b, n := Block(labels), LineLen(v);
    BlockBrackets(labels);
    assert '\n' !in u + b;
    LineLenAppend(u + b, v);
    assert u + b + v == u + b + v[..n] + v[n..];
    DefinitionsSplit(lower, u + b + v[..n], v[n..]);
    DefinedBeforeBlock(u, labels, v[..n]);
  }

  lemma {:induction false} DefinitionsUnbracketed(lower: CaseMap, s: string, d: string)
    requires d in Definitions(lower, s)
    ensures ']' !in d
    decreases |s|
  {
    if s != [] {
      var n := LineLen(s);
      if d in LabelOf(lower, s[..n]) {
        var l := DefinedBy(s[..n]).value;
        assert Folds(lower);
        forall i | 0 <= i < |d| ensures d[i] != ']' {
          assert d[i] == lower(l[i]) && l[i] != ']';
        }
      } else {
        DefinitionsUnbracketed(lower, s[n..], d);
      }
    }
  }

  // ----- The bracket scan -----

  /** Marks are never taken back. */
  lemma {:induction false} LinkKeeps(p: Page, i: nat, opens: seq<nat>, done: seq<bool>, q: nat)
    requires |p.base| == |p.s| && |done| == i <= |p.s| && Opens(opens, i) && q < |p.s|
    requires if q < i then done[q] else p.base[q]
    ensures LinkMask(p, i, opens, done)[q]
    decreases |p.s| - i
  {
    if i < |p.s| {
      var t := LinkTurn(p, i, opens, done);
      LinkKeeps(p, t.next, t.opens, t.done, q);
    }
  }

  /** A stretch without brackets is copied. */
  lemma {:induction false} LinkWalk(p: Page, i: nat, m: nat, opens: seq<nat>, done: seq<bool>)
    requires |p.base| == |p.s| && |done| == i && i + m <= |p.s| && Opens(opens, i)
    requires forall k :: i <= k < i + m ==> !p.base[k] && p.s[k] != '[' && p.s[k] != ']'
    ensures LinkMask(p, i, opens, done) == LinkMask(p, i + m, opens, done + Flags(m, false))
    decreases m
  {
    if m == 0 {
      assert done + Flags(0, false) == done;
    } else {
      LinkWalk(p, i + 1, m - 1, opens, done + [false]);
      assert done + [false] + Flags(m - 1, false) == done + Flags(m, false);
      assert LinkTurn(p, i, opens, done) == Turn(i + 1, opens, done + [false]);
    }
  }

  /** A plain bracket at position lo of a page. */
  ghost predicate BracketAt(p: Page, lo: nat, l: string) {
    && |p.base| == |p.s| && lo + |l| + 2 <= |p.s| && Inert(l)
    && p.s[lo] == '[' && p.s[lo + 1..lo + 1 + |l|] == l && p.s[lo + 1 + |l|] == ']'
    && !Escaped(p.s, lo)
    && (forall k :: lo <= k < lo + |l| + 2 ==> !p.base[k])
    && (lo + |l| + 2 < |p.s| ==> p.s[lo + |l| + 2] != '(')
  }

  lemma {:induction false} BracketUnescaped(p: Page, lo: nat, l: string)
    requires BracketAt(p, lo, l)
    ensures !Escaped(p.s, lo + 1 + |l|) && !Escaped(p.s, lo + |l| + 2)
    ensures forall k :: lo + 1 <= k < lo + 1 + |l| ==> p.s[k] !in "\n[]`\\"
  {
    forall k | lo + 1 <= k < lo + 1 + |l| ensures p.s[k] !in "\n[]`\\" {
      assert p.s[k] == l[k - lo - 1];
    }
    assert p.s[lo + |l|] != '\\';
  }

  /** The mask behind a bracket: nothing is added unless the bracket names a definition; then
      everything from where its reference starts is protected. */
  function Closed(p: Page, lo: nat, l: string, done: seq<bool>): (m: seq<bool>)
    requires |done| == lo <= |p.s|
    ensures |m| == lo + |l| + 2
  {
    if Lower(p.lower, l) in p.defs then MarkFrom(done, ReferenceStart(p.s, lo), lo + |l| + 2) else done + Flags(|l| + 2, false)
  }

  lemma {:induction false} BracketPassed(p: Page, lo: nat, l: string, opens: seq<nat>, done: seq<bool>)
    requires BracketAt(p, lo, l) && |done| == lo && Opens(opens, lo)
    ensures LinkMask(p, lo, opens, done) == LinkMask(p, lo + |l| + 2, opens, Closed(p, lo, l, done))
  {
    hide Escaped, LinkMask, ReferenceStart, Lower;
    BracketUnescaped(p, lo, l);
    var inside, d := opens + [lo], done + [false];
    LinkNext(p, lo, opens, done);
    assert LinkTurn(p, lo, opens, done) == Turn(lo + 1, inside, d);
    LinkWalk(p, lo + 1, |l|, inside, d);
    var i, d' := lo + 1 + |l|, d + Flags(|l|, false);
    LinkNext(p, i, inside, d');
    assert inside[..|inside| - 1] == opens;
    if Lower(p.lower, l) in p.defs {
      assert d'[..ReferenceStart(p.s, lo)] == done[..ReferenceStart(p.s, lo)];
    } else {
      assert d' + [false] == done + Flags(|l| + 2, false);
    }
    assert LinkTurn(p, i, inside, d') == Turn(i + 1, opens, Closed(p, lo, l, done));
  }

  lemma {:induction false} LinkNext(p: Page, i: nat, opens: seq<nat>, done: seq<bool>)
    requires |p.base| == |p.s| && |done| == i < |p.s| && Opens(opens, i)
    ensures var t := LinkTurn(p, i, opens, done); LinkMask(p, i, opens, done) == LinkMask(p, t.next, t.opens, t.done)
  {
  }

  function PageOf(lower: CaseMap, g: Gap, b: string, defs: set<string>): (p: Page)
    requires Fits(g)
    ensures |p.base| == |p.s| == |g.u| + |b| + |g.v|
  {
    Page(lower, TextOf(g, b), BaseOf(g, b), defs)
  }

  predicate NoParen(v: string) {
    v == [] || v[0] != '('
  }

  lemma {:induction false} EndsUnescaped(s: string)
    requires s != [] && s[|s| - 1] != '\\'
    ensures !Escaped(s, |s|)
  {
  }

  lemma {:induction false} SplitBlock(lower: CaseMap, g: Gap, b: string, tail: string, defs: set<string>)
    requires Fits(g)
    ensures PageOf(lower, g, b + tail, defs) == PageOf(lower, Gap(g.u + b, g.bu + Flags(|b|, false), g.v, g.bv), tail, defs)
  {
    assert g.u + (b + tail) + g.v == g.u + b + tail + g.v;
    assert Flags(|b + tail|, false) == Flags(|b|, false) + Flags(|tail|, false);
    assert g.bu + (Flags(|b|, false) + Flags(|tail|, false)) + g.bv == g.bu + Flags(|b|, false) + Flags(|tail|, false) + g.bv;
  }

  lemma {:induction false} BlockStarts(lower: CaseMap, g: Gap, labels: seq<string>, defs: set<string>)
    requires Fits(g) && Labels(labels) && NoParen(g.v) && !Escaped(g.u, |g.u|)
    ensures BracketAt(PageOf(lower, g, Block(labels), defs), |g.u|, labels[0])
  {
    hide Block, Escaped, AfterFirst, Inert;
    FirstBracket(labels, g.v);
    LabelInert(labels, 0);
    ConcatAssoc(g.u, Block(labels), g.v);
    EscapedBefore(g.u, Block(labels) + g.v, |g.u|);
    BlockLonger(labels);
    BracketPlaces(g.u, labels[0], AfterFirst(labels, g.v));
  }

  lemma {:induction false} BlockLonger(labels: seq<string>)
    requires Labels(labels)
    ensures |labels[0]| + 2 <= |Block(labels)|
  {
  }

  lemma {:induction false} BracketPlaces(u: string, l: string, after: string)
    ensures var s, lo := u + Labelled(l, after), |u|;
      && s[lo] == '[' && s[lo + 1..lo + 1 + |l|] == l && s[lo + 1 + |l|] == ']'
      && |s| == lo + |l| + 2 + |after| && (after != [] ==> s[lo + |l| + 2] == after[0])
  {
    var w := Labelled(l, after);
    assert w[1..1 + |l|] == l && w[1 + |l|] == ']' && w[|l| + 2..] == after;
    var s := u + w;
    assert s[|u|..] == w;
    assert s[|u| + 1..|u| + 1 + |l|] == w[1..1 + |l|];
    assert after != [] ==> w[|l| + 2] == after[0];
  }
}
