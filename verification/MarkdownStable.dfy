/** What rewriting a citation group does to protection: the bracket scan in front of the
    group, through it and behind it, and the theorem for one group. */
module MarkdownStable {
  import opened GoText
  import opened Markdown
  import opened MarkdownEdit
  import opened MarkdownLinks

  // ----- In front of the block -----

  /** A destination that starts in front of a block ends there, or reaches across it. */
  lemma {:induction false} CloseParenFront(u: string, w1: string, w2: string, k: nat, n: nat)
    requires w1 != [] && w2 != [] && k <= |u|
    ensures var r1, r2 := CloseParen(u + w1, k, n), CloseParen(u + w2, k, n); r1 == r2 <= |u| || (r1 > |u| && r2 > |u|)
    decreases |u| - k
  {
    if k < |u| && n > 0 {
      EscapedBefore(u, w1, k);
      EscapedBefore(u, w2, k);
      assert (u + w1)[k] == u[k] == (u + w2)[k];
      var n' := if Escaped(u, k) then n else if u[k] == '(' then n + 1 else if u[k] == ')' then n - 1 else n;
      CloseParenFront(u, w1, w2, k + 1, n');
    }
  }

  lemma {:induction false} OpenBeforeFront(u: string, w: string, k: nat)
    requires k <= |u|
    ensures OpenBefore(u + w, k) == OpenBefore(u, k)
  {
    if k > 0 {
      EscapedBefore(u, w, k - 1);
      OpenBeforeFront(u, w, k - 1);
    }
  }

  lemma {:induction false} ReferenceFront(u: string, w: string, start: nat)
    requires start <= |u|
    ensures ReferenceStart(u + w, start) == ReferenceStart(u, start)
  {
    if start > 0 {
      OpenBeforeFront(u, w, start - 1);
    }
  }

  /** The mask behind a block of brackets written behind u. */
  function Written(lower: CaseMap, defs: set<string>, u: string, labels: seq<string>, done: seq<bool>): (m: seq<bool>)
    requires |done| == |u|
    ensures |m| == |u| + |Block(labels)|
    decreases |labels|
  {
    if labels == [] then done
    else Written(lower, defs, u + Bracket(labels[0]), labels[1..], Closed(Page(lower, u, done, defs), |u|, labels[0], done))
  }

  lemma {:induction false} ClosedFront(p: Page, u: string, w: string, l: string, done: seq<bool>)
    requires p.s == u + w && |done| == |u|
    ensures Closed(p, |u|, l, done) == Closed(Page(p.lower, u, done, p.defs), |u|, l, done)
  {
    ReferenceFront(u, w, |u|);
  }

  /** The scan passes a block. */
  lemma {:induction false} BlockPassed(lower: CaseMap, g: Gap, labels: seq<string>, defs: set<string>, opens: seq<nat>, done: seq<bool>)
    requires Fits(g) && |done| == |g.u| && Opens(opens, |g.u|) && Labels(labels) && NoParen(g.v) && !Escaped(g.u, |g.u|)
    ensures var p, n := PageOf(lower, g, Block(labels), defs), |Block(labels)|;
      LinkMask(p, |g.u|, opens, done) == LinkMask(p, |g.u| + n, opens, Written(lower, defs, g.u, labels, done))
    decreases |labels|
  {
    hide LinkMask, Escaped, TextOf, BaseOf, BracketAt, Closed;
    var l, rest := labels[0], labels[1..];
    var b, tail := Bracket(l), Block(rest);
    var p := PageOf(lower, g, Block(labels), defs);
    BlockStarts(lower, g, labels, defs);
    BracketPassed(p, |g.u|, l, opens, done);
    PageFront(lower, g, Block(labels), defs);
    ClosedFront(p, g.u, Block(labels) + g.v, l, done);
    var d := Closed(p, |g.u|, l, done);
    if rest == [] {
      assert Block(labels) == b + "" == b;
    } else {
      LabelsTail(labels);
      var g' := Gap(g.u + b, g.bu + Flags(|b|, false), g.v, g.bv);
      SplitBlock(lower, g, b, tail, defs);
      EndsUnescaped(g.u + b);
      BlockPassed(lower, g', rest, defs, opens, d);
    }
  }

  lemma {:induction false} PageFront(lower: CaseMap, g: Gap, b: string, defs: set<string>)
    requires Fits(g)
    ensures var p := PageOf(lower, g, b, defs); p.s == g.u + (b + g.v) && p.lower == lower && p.defs == defs
  {
    ConcatAssoc(g.u, b, g.v);
  }

  lemma {:induction false} SameFront(g: Gap, b: string, start: nat, i: nat)
    requires Fits(g) && Brackets(b) && start < i <= |g.u|
    ensures TextOf(g, b)[start + 1..i] == g.u[start + 1..i]
    ensures ReferenceStart(TextOf(g, b), start) == ReferenceStart(g.u, start)
  {
    ConcatAssoc(g.u, b, g.v);
    ReferenceFront(g.u, b + g.v, start);
  }

  lemma {:induction false} CloseFront(g: Gap, b1: string, b2: string, k: nat)
    requires Fits(g) && Brackets(b1) && Brackets(b2) && k <= |g.u|
    ensures var r1, r2 := CloseParen(TextOf(g, b1), k, 1), CloseParen(TextOf(g, b2), k, 1); r1 == r2 <= |g.u| || (r1 > |g.u| && r2 > |g.u|)
  {
    ConcatAssoc(g.u, b1, g.v);
    ConcatAssoc(g.u, b2, g.v);
    CloseParenFront(g.u, b1 + g.v, b2 + g.v, k, 1);
  }

  /** One turn in front of the block is the same for both blocks, or protects the block. */
  lemma {:induction false} TurnFront(lower: CaseMap, g: Gap, b1: string, b2: string, defs: set<string>, i: nat, opens: seq<nat>, done: seq<bool>)
    requires Fits(g) && Brackets(b1) && Brackets(b2) && |done| == i < |g.u| && Opens(opens, i)
    ensures var t1 := LinkTurn(PageOf(lower, g, b1, defs), i, opens, done);
            var t2 := LinkTurn(PageOf(lower, g, b2, defs), i, opens, done);
      (t1 == t2 && t1.next <= |g.u|) || (t1.next > |g.u| && t1.done[|g.u|])
  {
    hide Escaped, CloseParen, ReferenceStart, Brackets, Lower, TextOf, BaseOf;
    ReadFront(g, b1, i);
    ReadFront(g, b2, i);
    ReadFront(g, b1, i + 1);
    ReadFront(g, b2, i + 1);
    if opens != [] {
      SameFront(g, b1, opens[|opens| - 1], i);
      SameFront(g, b2, opens[|opens| - 1], i);
    }
    if i + 2 <= |g.u| {
      CloseFront(g, b1, b2, i + 2);
    }
  }

  // ----- Behind the block -----

  lemma {:induction false} CloseParenBehind(p: string, v: string, k: nat, n: nat)
    requires k <= |v| && p != [] && p[|p| - 1] != '\\'
    ensures CloseParen(p + v, |p| + k, n) == |p| + CloseParen(v, k, n)
    decreases |v| - k
  {
    if k < |v| && n > 0 {
      EscapedBehind(p, v, k);
      assert (p + v)[|p| + k] == v[k];
      var n' := if Escaped(v, k) then n else if v[k] == '(' then n + 1 else if v[k] == ')' then n - 1 else n;
      CloseParenBehind(p, v, k + 1, n');
    }
  }

  /** The search for a label behind a plain bracket ends behind it, at it, or at a line's start. */
  lemma {:induction false} OpenBeforeBehind(u: string, l: string, v: string, k: nat)
    requires Inert(l) && k <= |v| && !Escaped(u, |u|)
    ensures var p, r := u + Bracket(l), OpenBefore(v, k);
      OpenBefore(p + v, |p| + k) == if r.Some? then Some(|p| + r.value) else if '\n' in v[..k] then None else Some(|u|)
  {
    var p := u + Bracket(l);
    if k == 0 {
      OpenOfBracket(u, l, v, |l|);
      assert (p + v)[|p| - 1] == ']';
    } else {
      EscapedBehind(p, v, k - 1);
      assert (p + v)[|p| + k - 1] == v[k - 1];
      OpenBeforeBehind(u, l, v, k - 1);
      assert v[..k] == v[..k - 1] + [v[k - 1]];
    }
  }

  lemma {:induction false} OpenOfBracket(u: string, l: string, v: string, k: nat)
    requires Inert(l) && k <= |l| && !Escaped(u, |u|)
    ensures OpenBefore(u + Bracket(l) + v, |u| + 1 + k) == Some(|u|)
  {
    var s := u + Bracket(l) + v;
    if k == 0 {
      ConcatAssoc(u, Bracket(l), v);
      EscapedBefore(u, Bracket(l) + v, |u|);
      assert s[|u|] == '[';
    } else {
      assert s[|u| + k] == l[k - 1];
      OpenOfBracket(u, l, v, k - 1);
    }
  }

  /** Behind any block the search does the same unless it reaches the block. */
  lemma {:induction false} OpenBeforeShift(p: string, v: string, k: nat)
    requires k <= |v| && p != [] && p[|p| - 1] != '\\'
    requires OpenBefore(v, k).Some? || '\n' in v[..k]
    ensures OpenBefore(p + v, |p| + k) == var r := OpenBefore(v, k); if r.Some? then Some(|p| + r.value) else None
  {
    if k > 0 {
      EscapedBehind(p, v, k - 1);
      assert (p + v)[|p| + k - 1] == v[k - 1];
      assert v[..k] == v[..k - 1] + [v[k - 1]];
      if v[k - 1] != '\n' && OpenBefore(v, k) != Some(k - 1) {
        OpenBeforeShift(p, v, k - 1);
      }
    }
  }

  /** Where the reference at x starts in what follows a block; None at the block itself. */
  function ReferenceIn(v: string, x: nat): (r: Option<nat>)
    requires x <= |v|
  {
    if x == 0 then None
    else if v[x - 1] != ']' then Some(x)
    else
      var k := OpenBefore(v, x - 1);
      if k.Some? then k else if '\n' in v[..x - 1] then Some(x) else None
  }

  lemma {:induction false} ReferenceBehind(u: string, l: string, v: string, x: nat)
    requires Inert(l) && x <= |v| && !Escaped(u, |u|)
    ensures var p, r := u + Bracket(l), ReferenceIn(v, x);
      ReferenceStart(p + v, |p| + x) == if r.Some? then |p| + r.value else |u|
  {
    var p := u + Bracket(l);
    if x == 0 {
      assert (p + v)[|p| - 1] == ']';
      OpenOfBracket(u, l, v, |l|);
    } else {
      assert (p + v)[|p| + x - 1] == v[x - 1];
      OpenBeforeBehind(u, l, v, x - 1);
    }
  }

  lemma {:induction false} ReferenceShift(p: string, v: string, x: nat)
    requires x <= |v| && p != [] && p[|p| - 1] != '\\' && ReferenceIn(v, x).Some?
    ensures ReferenceStart(p + v, |p| + x) == |p| + ReferenceIn(v, x).value
  {
    assert (p + v)[|p| + x - 1] == v[x - 1];
    if v[x - 1] == ']' {
      OpenBeforeShift(p, v, x - 1);
    }
  }

  /** The open brackets of the two scans: the same in front of the block, shifted behind it. */
  predicate OpensMatch(o1: seq<nat>, o2: seq<nat>, lo: nat, n1: nat, n2: nat) {
    && |o1| == |o2|
    && forall j :: 0 <= j < |o1| ==> (o1[j] < lo && o2[j] == o1[j]) || (o1[j] >= lo + n1 && o2[j] + n1 == o1[j] + n2)
  }

  lemma {:induction false} MarkAround(d1: seq<bool>, d2: seq<bool>, lo: nat, n1: nat, n2: nat, x: nat, k: nat)
    requires Around(d1, d2, lo, n1, n2, false) && lo + n1 + x <= |d1| && x <= k
    ensures Around(MarkFrom(d1, lo + n1 + x, lo + n1 + k), MarkFrom(d2, lo + n2 + x, lo + n2 + k), lo, n1, n2, false)
  {
    assert |d1[lo + n1..]| == |d2[lo + n2..]|;
    var m1, m2 := MarkFrom(d1, lo + n1 + x, lo + n1 + k), MarkFrom(d2, lo + n2 + x, lo + n2 + k);
    assert m1[..lo] == d1[..lo] && m2[..lo] == d2[..lo];
    assert m1[lo..lo + n1] == d1[lo..lo + n1] && m2[lo..lo + n2] == d2[lo..lo + n2];
    assert d1[lo + n1..][..x] == d2[lo + n2..][..x];
    assert m1[lo + n1..] == d1[lo + n1..][..x] + Flags(k - x, true);
    assert m2[lo + n2..] == d2[lo + n2..][..x] + Flags(k - x, true);
  }

  lemma {:induction false} AroundAppend(d1: seq<bool>, d2: seq<bool>, lo: nat, n1: nat, n2: nat, flag: bool)
    requires Around(d1, d2, lo, n1, n2, false)
    ensures Around(d1 + [flag], d2 + [flag], lo, n1, n2, false)
  {
    assert (d1 + [flag])[..lo] == d1[..lo] && (d2 + [flag])[..lo] == d2[..lo];
    assert (d1 + [flag])[lo + n1..] == d1[lo + n1..] + [flag] && (d2 + [flag])[lo + n2..] == d2[lo + n2..] + [flag];
    assert (d1 + [flag])[lo..lo + n1] == d1[lo..lo + n1] && (d2 + [flag])[lo..lo + n2] == d2[lo..lo + n2];
  }

  lemma {:induction false} LowerBracket(lower: CaseMap, s: string, i: nat)
    requires i < |s| && s[i] == ']'
    ensures ']' in Lower(lower, s)
  {
    assert Folds(lower);
    assert Lower(lower, s)[i] == lower(']') == ']';
  }

  ghost predicate Unbracketed(defs: set<string>) {
    forall d :: d in defs ==> ']' !in d
  }

  /** A label with a whole bracket in it names nothing. */
  lemma {:induction false} LabelAcross(lower: CaseMap, g: Gap, b: string, start: nat, k: nat, defs: set<string>)
    requires Brackets(b) && start < |g.u| && k <= |g.v| && Unbracketed(defs)
    ensures Lower(lower, TextOf(g, b)[start + 1..|g.u| + |b| + k]) !in defs
  {
    var s := TextOf(g, b);
    var x := s[start + 1..|g.u| + |b| + k];
    var i := |g.u| + |b| - 1 - (start + 1);
    assert s[|g.u| + |b| - 1] == b[|b| - 1];
    assert x[i] == s[start + 1 + i];
    LowerBracket(lower, x, i);
  }

  /** What a turn behind a block reads: the same in both texts. */
  lemma {:induction false} ReadBehind(g: Gap, b: string, k: nat)
    requires Fits(g) && Brackets(b) && k < |g.v|
    ensures var s, i := TextOf(g, b), |g.u| + |b| + k;
      && s[i] == g.v[k] && (Escaped(s, i) <==> Escaped(g.v, k)) && BaseOf(g, b)[i] == g.bv[k]
      && (k + 1 < |g.v| ==> s[i + 1] == g.v[k + 1])
      && (k + 2 <= |g.v| ==> CloseParen(s, i + 2, 1) == |g.u| + |b| + CloseParen(g.v, k + 2, 1))
  {
    FrontOf(g, b);
    EscapedBehind(g.u + b, g.v, k);
    if k + 2 <= |g.v| {
      CloseParenBehind(g.u + b, g.v, k + 2, 1);
    }
  }

  lemma {:induction false} SliceBehind(g: Gap, b: string, x: nat, k: nat)
    requires x <= k <= |g.v|
    ensures TextOf(g, b)[|g.u| + |b| + x..|g.u| + |b| + k] == g.v[x..k]
  {
  }

  /** The two scans stand at the same place behind the block, or the block is protected. */
  predicate TurnsMatch(t1: Turn, t2: Turn, lo: nat, n1: nat, n2: nat)
    requires lo < |t1.done|
  {
    || t1.done[lo]
    || (&& t1.next >= lo + n1 && t1.next + n2 == t2.next + n1
        && Around(t1.done, t2.done, lo, n1, n2, false) && OpensMatch(t1.opens, t2.opens, lo, n1, n2))
  }

  /** A bracket opened in front of the block closes behind it. */
  lemma {:induction false} CloseAcross(lower: CaseMap, g: Gap, l: string, b: string, defs: set<string>,
                    k: nat, start: nat, r1: seq<nat>, r2: seq<nat>, d1: seq<bool>, d2: seq<bool>)
    requires Fits(g) && Inert(l) && Brackets(b) && Unbracketed(defs) && k < |g.v| && !g.bv[k] && start < |g.u|
    requires |d1| == |g.u| + |l| + 2 + k && |d2| == |g.u| + |b| + k && Opens(r1, |d1|) && Opens(r2, |d2|)
    requires Around(d1, d2, |g.u|, |l| + 2, |b|, false) && OpensMatch(r1, r2, |g.u|, |l| + 2, |b|)
    ensures TurnsMatch(CloseTurn(PageOf(lower, g, Bracket(l), defs), |d1|, start, r1, d1),
                       CloseTurn(PageOf(lower, g, b, defs), |d2|, start, r2, d2), |g.u|, |l| + 2, |b|)
  {
    hide Escaped, CloseParen, ReferenceStart, Inert, Lower, Around, MarkFrom, OpensMatch, Brackets, TextOf, BaseOf, Bracket;
    BracketLen(l);
    LabelBrackets(l);
    ReadBehind(g, Bracket(l), k);
    ReadBehind(g, b, k);
    LabelAcross(lower, g, Bracket(l), start, k, defs);
    LabelAcross(lower, g, b, start, k, defs);
    if k + 1 < |g.v| && g.v[k + 1] == '(' {
      MarkCovers(d1, start, CloseParen(TextOf(g, Bracket(l)), |d1| + 2, 1), |g.u|);
    } else {
      AroundAppend(d1, d2, |g.u|, |l| + 2, |b|, false);
    }
  }

  /** A bracket opened and closed behind the block. */
  lemma {:induction false} CloseWithin(lower: CaseMap, g: Gap, l: string, b: string, defs: set<string>,
                     k: nat, x: nat, r1: seq<nat>, r2: seq<nat>, d1: seq<bool>, d2: seq<bool>)
    requires Fits(g) && Inert(l) && Brackets(b) && !Escaped(g.u, |g.u|) && k < |g.v| && !g.bv[k] && x < k
    requires |d1| == |g.u| + |l| + 2 + k && |d2| == |g.u| + |b| + k && Opens(r1, |d1|) && Opens(r2, |d2|)
    requires Around(d1, d2, |g.u|, |l| + 2, |b|, false) && OpensMatch(r1, r2, |g.u|, |l| + 2, |b|)
    ensures TurnsMatch(CloseTurn(PageOf(lower, g, Bracket(l), defs), |d1|, |g.u| + |l| + 2 + x, r1, d1),
                       CloseTurn(PageOf(lower, g, b, defs), |d2|, |g.u| + |b| + x, r2, d2), |g.u|, |l| + 2, |b|)
  {
    hide CloseTurn, CloseParen, ReferenceStart, Inert, Lower, Around, MarkFrom, OpensMatch, Brackets, TextOf, BaseOf, Escaped, Bracket;
    LabelBrackets(l);
    BracketLen(l);
    CloseReads(lower, g, Bracket(l), defs, k, x, r1, d1);
    CloseReads(lower, g, b, defs, k, x, r2, d2);
    if k + 1 < |g.v| && g.v[k + 1] == '(' {
      MarkAround(d1, d2, |g.u|, |l| + 2, |b|, x, CloseParen(g.v, k + 2, 1));
    } else if Lower(lower, g.v[x + 1..k]) in defs {
      ReferenceBehindBoth(g, l, b, x, d1, d2, k);
    } else {
      AroundAppend(d1, d2, |g.u|, |l| + 2, |b|, false);
    }
  }

  /** A closing turn behind a block, in terms of what follows the block. */
  lemma {:induction false} CloseReads(lower: CaseMap, g: Gap, b: string, defs: set<string>,
                   k: nat, x: nat, rest: seq<nat>, done: seq<bool>)
    requires Fits(g) && Brackets(b) && k < |g.v| && !g.bv[k] && x < k
    requires |done| == |g.u| + |b| + k && Opens(rest, |done|)
    ensures CloseTurn(PageOf(lower, g, b, defs), |done|, |g.u| + |b| + x, rest, done)
         == (if k + 1 < |g.v| && g.v[k + 1] == '(' then
               Turn(|g.u| + |b| + CloseParen(g.v, k + 2, 1), rest, MarkFrom(done, |g.u| + |b| + x, |g.u| + |b| + CloseParen(g.v, k + 2, 1)))
             else if Lower(lower, g.v[x + 1..k]) in defs then
               Turn(|done| + 1, rest, MarkFrom(done, ReferenceStart(TextOf(g, b), |g.u| + |b| + x), |done| + 1))
             else Turn(|done| + 1, rest, done + [false]))
  {
    hide Escaped, CloseParen, ReferenceStart, Lower, MarkFrom, Brackets, TextOf, BaseOf;
    ReadBehind(g, b, k);
    SliceBehind(g, b, x + 1, k);
  }

  lemma {:induction false} ReferenceBehindBoth(g: Gap, l: string, b: string, x: nat, d1: seq<bool>, d2: seq<bool>, k: nat)
    requires Fits(g) && Inert(l) && Brackets(b) && !Escaped(g.u, |g.u|) && x < k < |g.v|
    requires |d1| == |g.u| + |l| + 2 + k && |d2| == |g.u| + |b| + k && Around(d1, d2, |g.u|, |l| + 2, |b|, false)
    ensures var q1, q2 := ReferenceStart(TextOf(g, Bracket(l)), |g.u| + |l| + 2 + x), ReferenceStart(TextOf(g, b), |g.u| + |b| + x);
      && q1 <= |d1| && q2 <= |d2|
      && (MarkFrom(d1, q1, |d1| + 1)[|g.u|] || Around(MarkFrom(d1, q1, |d1| + 1), MarkFrom(d2, q2, |d2| + 1), |g.u|, |l| + 2, |b|, false))
  {
    hide ReferenceStart, ReferenceIn, Around, MarkFrom, TextOf, BaseOf;
    LabelBrackets(l);
    FrontOf(g, Bracket(l));
    FrontOf(g, b);
    ReferenceBehind(g.u, l, g.v, x);
    ReferenceInBounds(g.v, x);
    if ReferenceIn(g.v, x).Some? {
      ReferenceShift(g.u + b, g.v, x);
      MarkAround(d1, d2, |g.u|, |l| + 2, |b|, ReferenceIn(g.v, x).value, k + 1);
    } else {
      MarkCovers(d1, |g.u|, |d1| + 1, |g.u|);
    }
  }

  lemma {:induction false} BracketLen(l: string)
    ensures |Bracket(l)| == |l| + 2
  {
  }

  lemma {:induction false} ReferenceInBounds(v: string, x: nat)
    requires x <= |v|
    ensures ReferenceIn(v, x).Some? ==> ReferenceIn(v, x).value <= x
  {
  }

  lemma {:induction false} MarkCovers(done: seq<bool>, from: nat, end: nat, q: nat)
    requires from <= |done| && from <= q < end
    ensures MarkFrom(done, from, end)[q]
  {
  }

  lemma {:induction false} LabelBrackets(l: string)
    requires Inert(l)
    ensures Brackets(Bracket(l))
  {
  }

  lemma {:induction false} TurnBehind(lower: CaseMap, g: Gap, l: string, b: string, defs: set<string>,
                   k: nat, o1: seq<nat>, o2: seq<nat>, d1: seq<bool>, d2: seq<bool>)
    requires Fits(g) && Inert(l) && Brackets(b) && !Escaped(g.u, |g.u|) && Unbracketed(defs) && k < |g.v|
    requires |d1| == |g.u| + |l| + 2 + k && |d2| == |g.u| + |b| + k && Opens(o1, |d1|) && Opens(o2, |d2|)
    requires Around(d1, d2, |g.u|, |l| + 2, |b|, false) && OpensMatch(o1, o2, |g.u|, |l| + 2, |b|)
    ensures TurnsMatch(LinkTurn(PageOf(lower, g, Bracket(l), defs), |d1|, o1, d1),
                       LinkTurn(PageOf(lower, g, b, defs), |d2|, o2, d2), |g.u|, |l| + 2, |b|)
  {
    hide Escaped, Inert, Brackets, Around, CloseTurn, LinkTurn, TextOf, BaseOf;
    var lo, n1, n2 := |g.u|, |l| + 2, |b|;
    LabelBrackets(l);
    TurnReads(lower, g, Bracket(l), defs, k, o1, d1);
    TurnReads(lower, g, b, defs, k, o2, d2);
    if Closes(g.v, g.bv, k, o1) {
      var s1, r1, r2 := o1[|o1| - 1], o1[..|o1| - 1], o2[..|o2| - 1];
      if s1 < lo {
        CloseAcross(lower, g, l, b, defs, k, s1, r1, r2, d1, d2);
      } else {
        CloseWithin(lower, g, l, b, defs, k, s1 - lo - n1, r1, r2, d1, d2);
      }
    } else {
      AroundAppend(d1, d2, lo, n1, n2, g.bv[k]);
    }
  }

  predicate Closes(v: string, bv: seq<bool>, k: nat, opens: seq<nat>)
    requires |bv| == |v| && k < |v|
  {
    !bv[k] && !Escaped(v, k) && v[k] == ']' && opens != []
  }

  /** A turn behind a block, in terms of what follows the block. */
  lemma {:induction false} TurnReads(lower: CaseMap, g: Gap, b: string, defs: set<string>,
                  k: nat, opens: seq<nat>, done: seq<bool>)
    requires Fits(g) && Brackets(b) && k < |g.v| && |done| == |g.u| + |b| + k && Opens(opens, |done|)
    ensures var p := PageOf(lower, g, b, defs);
      LinkTurn(p, |done|, opens, done)
      == (if Closes(g.v, g.bv, k, opens) then CloseTurn(p, |done|, opens[|opens| - 1], opens[..|opens| - 1], done)
          else if !g.bv[k] && !Escaped(g.v, k) && g.v[k] == '[' then Turn(|done| + 1, opens + [|done|], done + [g.bv[k]])
          else Turn(|done| + 1, opens, done + [g.bv[k]]))
  {
    hide Escaped, CloseTurn, Brackets, TextOf, BaseOf;
    ReadBehind(g, b, k);
  }

  /** The scans behind the block end with the same mask, or the block is protected. */
  lemma {:induction false} LinkBehind(lower: CaseMap, g: Gap, l: string, b: string, defs: set<string>,
                                      k: nat, o1: seq<nat>, o2: seq<nat>, d1: seq<bool>, d2: seq<bool>)
    requires Fits(g) && Inert(l) && Brackets(b) && !Escaped(g.u, |g.u|) && Unbracketed(defs) && k <= |g.v|
    requires |d1| == |g.u| + |l| + 2 + k && |d2| == |g.u| + |b| + k && Opens(o1, |d1|) && Opens(o2, |d2|)
    requires Around(d1, d2, |g.u|, |l| + 2, |b|, false) && OpensMatch(o1, o2, |g.u|, |l| + 2, |b|)
    ensures var m1 := LinkMask(PageOf(lower, g, Bracket(l), defs), |d1|, o1, d1);
      m1[|g.u|] || Around(m1, LinkMask(PageOf(lower, g, b, defs), |d2|, o2, d2), |g.u|, |l| + 2, |b|, false)
    decreases |g.v| - k
  {
    hide LinkTurn, Around, OpensMatch, Inert, Brackets, Escaped, TextOf, BaseOf;
    if k < |g.v| {
      var p1, p2 := PageOf(lower, g, Bracket(l), defs), PageOf(lower, g, b, defs);
      TurnBehind(lower, g, l, b, defs, k, o1, o2, d1, d2);
      var t1, t2 := LinkTurn(p1, |d1|, o1, d1), LinkTurn(p2, |d2|, o2, d2);
      if t1.done[|g.u|] {
        LinkKeeps(p1, t1.next, t1.opens, t1.done, |g.u|);
      } else {
        LinkBehind(lower, g, l, b, defs, t1.next - |g.u| - |l| - 2, t1.opens, t2.opens, t1.done, t2.done);
      }
    }
  }

  // ----- One group -----

  lemma {:induction false} BlockOfOne(l: string)
    ensures Block([l]) == Bracket(l)
  {
    assert [l][1..] == [];
    assert Bracket(l) + "" == Bracket(l);
  }

  // ----- Marks -----

  /** What is protected already stays protected, and decides nothing else. */
  lemma {:induction false} MarksAdd(p: Page, i: nat, opens: seq<nat>, done: seq<bool>, q: nat)
    requires |p.base| == |p.s| && |done| == i <= |p.s| && Opens(opens, i) && q < |p.s|
    ensures LinkMask(p, i, opens, done)[q] <==> LinkMask(p, i, opens, Flags(i, false))[q] || (q < i && done[q])
    decreases |p.s| - i
  {
    if i < |p.s| {
      hide LinkTurn;
      var t, t0 := LinkTurn(p, i, opens, done), LinkTurn(p, i, opens, Flags(i, false));
      TurnAdds(p, i, opens, done);
      MarksAdd(p, t.next, t.opens, t.done, q);
      MarksAdd(p, t0.next, t0.opens, t0.done, q);
    }
  }

  lemma {:induction false} TurnAdds(p: Page, i: nat, opens: seq<nat>, done: seq<bool>)
    requires |p.base| == |p.s| && |done| == i < |p.s| && Opens(opens, i)
    ensures var t, t0 := LinkTurn(p, i, opens, done), LinkTurn(p, i, opens, Flags(i, false));
      && t.next == t0.next && t.opens == t0.opens
      && (forall q :: 0 <= q < t.next ==> (t.done[q] <==> t0.done[q] || (q < i && done[q])))
      && (forall q, r :: 0 <= q <= r < i && t0.done[q] ==> t0.done[r])
  {
    hide CloseParen, ReferenceStart, Lower, Escaped;
  }

  /** A mark that starts in what has been scanned reaches to its end. */
  lemma {:induction false} MarksReach(p: Page, i: nat, opens: seq<nat>, q: nat, r: nat)
    requires |p.base| == |p.s| && q <= r < i <= |p.s| && Opens(opens, i)
    ensures LinkMask(p, i, opens, Flags(i, false))[q] ==> LinkMask(p, i, opens, Flags(i, false))[r]
    decreases |p.s| - i
  {
    if i < |p.s| {
      hide LinkTurn;
      var t := LinkTurn(p, i, opens, Flags(i, false));
      TurnAdds(p, i, opens, Flags(i, false));
      MarksAdd(p, t.next, t.opens, t.done, q);
      MarksAdd(p, t.next, t.opens, t.done, r);
      MarksReach(p, t.next, t.opens, q, r);
    }
  }

  /** If the scan from i on leaves what is right in front of i alone, it leaves everything in
      front of i alone, whatever that is. */
  lemma {:induction false} MarksBehind(p: Page, i: nat, opens: seq<nat>, d: seq<bool>, e: seq<bool>)
    requires |p.base| == |p.s| && |d| == |e| == i <= |p.s| && i > 0 && Opens(opens, i)
    requires !LinkMask(p, i, opens, d)[i - 1]
    ensures LinkMask(p, i, opens, e) == e + LinkMask(p, i, opens, d)[i..]
  {
    hide LinkMask;
    var m, m' := LinkMask(p, i, opens, d), LinkMask(p, i, opens, e);
    MarksAdd(p, i, opens, d, i - 1);
    forall q | 0 <= q < |p.s| ensures m'[q] == (e + m[i..])[q] {
      MarksAdd(p, i, opens, e, q);
      MarksAdd(p, i, opens, d, q);
      if q < i { MarksReach(p, i, opens, q, i - 1); }
    }
  }

  /** The scan of the text with the new block in the place of the old bracket: the mask is
      that of the old text in front, then what the block adds, and the rest is as it was;
      unless the old bracket was protected. */
  ghost predicate Replaced(lower: CaseMap, g: Gap, l: string, labels: seq<string>, defs: set<string>, m1: seq<bool>, m2: seq<bool>) {
    && |g.u| + |l| + 2 <= |m1|
    && (m1[|g.u|] || m2 == Written(lower, defs, g.u, labels, m1[..|g.u|]) + m1[|g.u| + |l| + 2..])
  }

  lemma {:induction false} LinkThrough(lower: CaseMap, g: Gap, l: string, labels: seq<string>, defs: set<string>, opens: seq<nat>, done: seq<bool>)
    requires Fits(g) && Inert(l) && Labels(labels) && NoParen(g.v) && !Escaped(g.u, |g.u|) && Unbracketed(defs)
    requires |done| == |g.u| && Opens(opens, |g.u|)
    ensures Replaced(lower, g, l, labels, defs, LinkMask(PageOf(lower, g, Bracket(l), defs), |g.u|, opens, done),
                     LinkMask(PageOf(lower, g, Block(labels), defs), |g.u|, opens, done))
  {
    hide LinkMask, Around, Inert, Brackets, Escaped, TextOf, BaseOf, Block, Bracket, BracketAt, Written, Lower;
    var p1, p2 := PageOf(lower, g, Bracket(l), defs), PageOf(lower, g, Block(labels), defs);
    var n1, n2 := |l| + 2, |Block(labels)|;
    BracketLen(l);
    BlockOfOne(l);
    LabelsOfOne(l);
    BlockBrackets(labels);
    BlockStarts(lower, g, [l], defs);
    BracketPassed(p1, |g.u|, l, opens, done);
    BlockPassed(lower, g, labels, defs, opens, done);
    if Lower(lower, l) in defs {
      LinkKeeps(p1, |g.u| + n1, opens, Closed(p1, |g.u|, l, done), |g.u|);
    } else {
      var d1, d2 := done + Flags(n1, false), done + Flags(n2, false);
      AroundBlocks(done, n1, n2, false, []);
      assert d1 + [] == d1 && d2 + [] == d2;
      BlockSize(labels);
      LinkBehind(lower, g, l, Block(labels), defs, 0, opens, opens, d1, d2);
      RunsMeet(p1, p2, |g.u|, n1, n2, opens, done, Written(lower, defs, g.u, labels, done));
    }
  }

  lemma {:induction false} BlockSize(labels: seq<string>)
    requires Labels(labels)
    ensures |Block(labels)| >= 2
  {
    BlockBrackets(labels);
  }

  /** Two scans that agree around a block they leave alone, and a scan of the second text
      from another mask. */
  lemma {:induction false} RunsMeet(p1: Page, p2: Page, lo: nat, n1: nat, n2: nat, opens: seq<nat>, done: seq<bool>, w: seq<bool>)
    requires |p1.base| == |p1.s| && |p2.base| == |p2.s| && |done| == lo && n1 > 0 && n2 > 0 && lo + n1 <= |p1.s| && lo + n2 <= |p2.s|
    requires Opens(opens, lo) && |w| == lo + n2
    requires var m1 := LinkMask(p1, lo + n1, opens, done + Flags(n1, false));
      m1[lo] || Around(m1, LinkMask(p2, lo + n2, opens, done + Flags(n2, false)), lo, n1, n2, false)
    ensures var m1 := LinkMask(p1, lo + n1, opens, done + Flags(n1, false));
      m1[lo] || (m1[..lo] == done && LinkMask(p2, lo + n2, opens, w) == w + m1[lo + n1..])
  {
    hide LinkMask;
    var d1, d2 := done + Flags(n1, false), done + Flags(n2, false);
    var m1, m2 := LinkMask(p1, lo + n1, opens, d1), LinkMask(p2, lo + n2, opens, d2);
    if !m1[lo] {
      assert m1[lo + n1 - 1] == m1[lo..lo + n1][n1 - 1] && m2[lo + n2 - 1] == m2[lo..lo + n2][n2 - 1];
      MarksBehind(p1, lo + n1, opens, d1, d1);
      MarksBehind(p2, lo + n2, opens, d2, w);
      assert m1[..lo] == (d1 + m1[lo + n1..])[..lo] == done;
    }
  }

  lemma {:induction false} LabelsOfOne(l: string)
    requires Inert(l)
    ensures Labels([l])
  {
  }

  lemma {:induction false} LinkEdit(lower: CaseMap, g: Gap, l: string, labels: seq<string>, defs: set<string>, i: nat, opens: seq<nat>, done: seq<bool>)
    requires Fits(g) && Inert(l) && Labels(labels) && NoParen(g.v) && !Escaped(g.u, |g.u|) && Unbracketed(defs)
    requires |done| == i <= |g.u| && Opens(opens, i)
    ensures Replaced(lower, g, l, labels, defs, LinkMask(PageOf(lower, g, Bracket(l), defs), i, opens, done),
                     LinkMask(PageOf(lower, g, Block(labels), defs), i, opens, done))
    decreases |g.u| - i
  {
    hide LinkMask, Inert, Brackets, Escaped, TextOf, BaseOf, Block, Bracket, LinkTurn, Written;
    BracketLen(l);
    if i == |g.u| {
      LinkThrough(lower, g, l, labels, defs, opens, done);
    } else {
      LabelBrackets(l);
      BlockBrackets(labels);
      var p1, p2 := PageOf(lower, g, Bracket(l), defs), PageOf(lower, g, Block(labels), defs);
      TurnFront(lower, g, Bracket(l), Block(labels), defs, i, opens, done);
      var t := LinkTurn(p1, i, opens, done);
      LinkNext(p1, i, opens, done);
      LinkNext(p2, i, opens, done);
      if t.next <= |g.u| {
        LinkEdit(lower, g, l, labels, defs, t.next, t.opens, t.done);
      } else {
        LinkKeeps(p1, t.next, t.opens, t.done, |g.u|);
      }
    }
  }

  lemma {:induction false} SpanKeeps(s: string, base: seq<bool>, i: nat, q: nat)
    requires |base| == |s| && i <= q < |s| && base[q]
    ensures SpanMask(s, base, i)[q - i]
    decreases |s| - i
  {
    hide SpanFlags;
    var flags := SpanFlags(s, base, i);
    FlagsKeep(s, base, i, q);
    if q - i >= |flags| {
      SpanKeeps(s, base, i + |flags|, q);
    }
  }

  lemma {:induction false} FlagsKeep(s: string, base: seq<bool>, i: nat, q: nat)
    requires |base| == |s| && i <= q < |s| && base[q]
    ensures var flags := SpanFlags(s, base, i); q - i < |flags| ==> flags[q - i]
  {
    hide CloseTicks, Ticks, Escaped;
  }

  /** The masks of a text around a block, seen as a gap. */
  lemma {:induction false} GapOf(m1: seq<bool>, m2: seq<bool>, u: string, b1: string, b2: string, v: string)
    requires Around(m1, m2, |u|, |b1|, |b2|, false) && |m1| == |u| + |b1| + |v|
    ensures var g := Gap(u, m1[..|u|], v, m1[|u| + |b1|..]);
      Fits(g) && TextOf(g, b1) == u + b1 + v && TextOf(g, b2) == u + b2 + v && BaseOf(g, b1) == m1 && BaseOf(g, b2) == m2
  {
    assert m1 == m1[..|u|] + m1[|u|..|u| + |b1|] + m1[|u| + |b1|..];
    assert m2 == m2[..|u|] + m2[|u|..|u| + |b2|] + m2[|u| + |b2|..];
  }

  lemma {:induction false} CodeEdit(u: string, b1: string, b2: string, v: string)
    requires Brackets(b1) && Brackets(b2)
    ensures CodeMask(u + b1 + v)[|u|] || Around(CodeMask(u + b1 + v), CodeMask(u + b2 + v), |u|, |b1|, |b2|, false)
  {
    hide LineMask, SpanMask, Around, TextOf, BaseOf;
    var s1, s2 := u + b1 + v, u + b2 + v;
    var m1, m2 := LineMask(s1, START), LineMask(s2, START);
    var flag := LineMaskEdit(u, b1, b2, v, START);
    if flag {
      assert m1[|u|] by { AroundFlag(m1, m2, |u|, |b1|, |b2|, flag); }
      SpanKeeps(s1, m1, 0, |u|);
    } else {
      GapOf(m1, m2, u, b1, b2, v);
      SpanEdit(Gap(u, m1[..|u|], v, m1[|u| + |b1|..]), b1, b2, 0);
    }
  }

  lemma {:induction false} AroundFlag(m1: seq<bool>, m2: seq<bool>, lo: nat, n1: nat, n2: nat, flag: bool)
    requires Around(m1, m2, lo, n1, n2, flag) && n1 > 0
    ensures m1[lo] == flag
  {
    assert m1[lo] == m1[lo..lo + n1][0];
  }

  /** What may follow a rewritten group: no destination, no definition. */
  predicate NoLinkAhead(v: string) {
    v == [] || (v[0] != '(' && v[0] != ':')
  }

  /** Replacing one unprotected group by brackets: the definitions are the same, and the
      protection derived from the new text is the old one in front of the group, then what
      the new brackets add, then the old one behind the group. */
  lemma {:induction false} EditProtection(lower: CaseMap, u: string, l: string, labels: seq<string>, v: string)
    requires Inert(l) && Labels(labels) && NoLinkAhead(v) && !Escaped(u, |u|)
    requires !Protect(lower, u + Bracket(l) + v)[|u|]
    ensures Definitions(lower, u + Block(labels) + v) == Definitions(lower, u + Bracket(l) + v)
    ensures var m := Protect(lower, u + Bracket(l) + v);
      Protect(lower, u + Block(labels) + v)
      == Written(lower, Definitions(lower, u + Bracket(l) + v), u, labels, m[..|u|]) + m[|u| + |l| + 2..]
  {
    hide CodeMask, Definitions, LinkMask, Around, Inert, Brackets, Block, Bracket, Escaped, TextOf, BaseOf, Written;
    var b1, b2 := Bracket(l), Block(labels);
    var s1, s2 := u + b1 + v, u + b2 + v;
    LabelBrackets(l);
    BracketLen(l);
    BlockBrackets(labels);
    BlockOfOne(l);
    LabelsOfOne(l);
    DefinitionsEdit(lower, u, [l], labels, v);
    var defs, c1, c2 := Definitions(lower, s1), CodeMask(s1), CodeMask(s2);
    CodeEdit(u, b1, b2, v);
    if c1[|u|] {
      LinkKeeps(Page(lower, s1, c1, defs), 0, [], [], |u|);
    } else {
      GapOf(c1, c2, u, b1, b2, v);
      var g := Gap(u, c1[..|u|], v, c1[|u| + |b1|..]);
      forall d | d in defs ensures ']' !in d { DefinitionsUnbracketed(lower, s1, d); }
      LinkEdit(lower, g, l, labels, defs, 0, [], []);
    }
  }
}
