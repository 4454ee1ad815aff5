/** What rewriting a citation group does to Markdown's protection. Here: to the phases for
    lines and code spans a block of plain brackets is invisible. */
module MarkdownEdit {
  import opened GoText
  import opened Markdown

  /** A label that no phase looks into. */
  predicate Inert(l: string) {
    forall i :: 0 <= i < |l| ==> l[i] !in "\n[]`\\"
  }

  function Bracket(l: string): string {
    "[" + l + "]"
  }

  /** Adjacent brackets. */
  function Block(labels: seq<string>): string {
    if labels == [] then "" else Bracket(labels[0]) + Block(labels[1..])
  }

  predicate Labels(labels: seq<string>) {
    labels != [] && forall k :: 0 <= k < |labels| ==> Inert(labels[k])
  }

  /** What the phases may know of a block. */
  predicate Brackets(b: string) {
    && |b| >= 2 && b[0] == '[' && b[|b| - 1] == ']'
    && forall i :: 0 <= i < |b| ==> b[i] !in "\n`\\"
  }

  lemma {:induction false} BlockBrackets(labels: seq<string>)
    requires Labels(labels)
    ensures Brackets(Block(labels))
  {
    var b := Bracket(labels[0]);
    assert Inert(labels[0]);
    assert Brackets(b);
    if |labels| > 1 {
      BlockBrackets(labels[1..]);
      var rest := Block(labels[1..]);
      forall i | 0 <= i < |b + rest| ensures (b + rest)[i] !in "\n`\\" {
        if i >= |b| { assert (b + rest)[i] == rest[i - |b|]; }
      }
      assert (b + rest)[|b + rest| - 1] == rest[|rest| - 1];
    } else {
      assert labels[1..] == [];
      assert b + Block([]) == b;
    }
  }

  // ----- Lines -----

  lemma {:induction false} LineLenAppend(a: string, b: string)
    ensures LineLen(a + b) == if '\n' in a then LineLen(a) else |a| + LineLen(b)
  {
    if a == [] {
      assert a + b == b;
    } else {
      assert (a + b)[1..] == a[1..] + b;
      LineLenAppend(a[1..], b);
      assert a == [a[0]] + a[1..];
    }
  }

  lemma {:induction false} TrimLeftAt(u: string, w: string)
    requires w != [] && !IsSpace(w[0])
    ensures TrimSpaceLeft(u + w) == TrimSpaceLeft(u) + w
  {
    if u == [] {
      assert u + w == w;
    } else {
      assert (u + w)[1..] == u[1..] + w;
      TrimLeftAt(u[1..], w);
    }
  }

  lemma {:induction false} TrimRightAt(w: string, b: string)
    requires w != [] && !IsSpace(w[|w| - 1])
    ensures TrimSpaceRight(w + b) == w + TrimSpaceRight(b)
  {
    if b == [] {
      assert w + b == w;
    } else {
      assert (w + b)[..|w + b| - 1] == w + b[..|b| - 1];
      TrimRightAt(w, b[..|b| - 1]);
    }
  }

  lemma {:induction false} TrimAround(u: string, b: string, rest: string)
    requires Brackets(b)
    ensures TrimSpace(u + b + rest) == TrimSpaceLeft(u) + (b + TrimSpaceRight(rest))
  {
    TrimLeftAt(u, b + rest);
    ConcatAssoc(u, b, rest);
    var left := TrimSpaceLeft(u);
    ConcatAssoc(left, b, rest);
    assert (left + b)[|left + b| - 1] == ']';
    TrimRightAt(left + b, rest);
    ConcatAssoc(left, b, TrimSpaceRight(rest));
  }

  lemma {:induction false} CharRunAt(u: string, w: string, c: char)
    requires w != [] && w[0] != c
    ensures CharRun(u + w, c) == CharRun(u, c)
  {
    if u == [] {
      assert u + w == w;
    } else {
      assert (u + w)[1..] == u[1..] + w;
      CharRunAt(u[1..], w, c);
    }
  }

  lemma {:induction false} IndentAt(u: string, w: string)
    requires w != [] && w[0] == '['
    ensures Indent(u + w) == Indent(u)
  {
    if u == [] {
      assert u + w == w;
    } else {
      assert (u + w)[1..] == u[1..] + w;
      IndentAt(u[1..], w);
    }
  }

  lemma {:induction false} DigitsAt(u: string, w: string)
    requires w != [] && w[0] == '['
    ensures DigitsAhead(u + w) == DigitsAhead(u)
  {
    if u == [] {
      assert u + w == w;
    } else {
      assert (u + w)[1..] == u[1..] + w;
      DigitsAt(u[1..], w);
    }
  }

  /** A bracket cannot take part in what a line starts with. */
  lemma {:induction false} ListStartAt(u: string, w: string)
    requires w != [] && w[0] == '['
    ensures ListStart(u + w) <==> ListStart(u)
  {
    DigitsAt(u, w);
    if u == [] {
      assert u + w == w;
    }
  }

  lemma {:induction false} FenceRunAt(u: string, w: string)
    requires w != [] && w[0] == '['
    ensures FenceRun(u + w) == FenceRun(u)
  {
    if u == [] {
      assert u + w == w;
    } else {
      assert (u + w)[0] == u[0];
      if u[0] in "`~" {
        CharRunAt(u, w, u[0]);
      }
    }
  }

  lemma {:induction false} PrefixAt(u: string, w: string, p: string)
    requires w != [] && '[' !in p && w[0] == '['
    ensures HasPrefix(u + w, p) <==> HasPrefix(u, p)
  {
    if |p| <= |u| {
      assert (u + w)[..|p|] == u[..|p|];
    } else if |p| <= |u + w| {
      assert (u + w)[..|p|][|u|] == '[' && p[|u|] != '[';
    }
  }

  /** The line's state as a function of what stands before the block. */
  function StateFrom(st: LineState, u: string): LineState {
    var left := TrimSpaceLeft(u);
    var run := FenceRun(left);
    var inList := if ListStart(left) then true else if Indent(u) == 0 then false else st.inList;
    var fence := if st.fence.Some? then st.fence else if run >= 3 then Some(Fence(left[0], run)) else None;
    var indented := !inList && (st.previousBlank || st.previousMasked) && (HasPrefix(u, "    ") || HasPrefix(u, "\t"));
    LineState(fence, inList, false, st.fence.Some? || run >= 3 || indented)
  }

  lemma {:induction false} LineReads(st: LineState, u: string, b: string, rest: string)
    requires Brackets(b)
    ensures LineAfter(st, u + b + rest) == StateFrom(st, u)
  {
    hide TrimSpace, TrimSpaceLeft, TrimSpaceRight, ListStart, FenceRun, Indent, HasPrefix;
    var raw, left, w := u + b + rest, TrimSpaceLeft(u), b + TrimSpaceRight(rest);
    TrimAround(u, b, rest);
    ConcatAssoc(u, b, rest);
    assert w[0] == '[' && (b + rest)[0] == '[';
    ListStartAt(left, w);
    FenceRunAt(left, w);
    IndentAt(u, b + rest);
    PrefixAt(u, b + rest, "    ");
    PrefixAt(u, b + rest, "\t");
    assert left != [] ==> (left + w)[0] == left[0];
    var run := FenceRun(left);
    NoBlankAfterRun(left, b, rest, run);
  }

  lemma {:induction false} NoBlankAfterRun(left: string, b: string, rest: string, run: nat)
    requires Brackets(b) && run <= |left|
    ensures TrimSpace((left + (b + TrimSpaceRight(rest)))[run..]) != []
    ensures left + (b + TrimSpaceRight(rest)) != []
  {
    var w := b + TrimSpaceRight(rest);
    assert (left + w)[run..] == left[run..] + w;
    ConcatAssoc(left[run..], b, TrimSpaceRight(rest));
    TrimAround(left[run..], b, TrimSpaceRight(rest));
  }

  /** Two masks of texts that differ in one block: equal before and after it, and constant
      inside it. */
  predicate Around(m1: seq<bool>, m2: seq<bool>, lo: nat, n1: nat, n2: nat, flag: bool) {
    && lo + n1 <= |m1| && lo + n2 <= |m2|
    && m1[..lo] == m2[..lo] && m1[lo + n1..] == m2[lo + n2..]
    && m1[lo..lo + n1] == Flags(n1, flag) && m2[lo..lo + n2] == Flags(n2, flag)
  }

  lemma {:induction false} AroundBlocks(left: seq<bool>, n1: nat, n2: nat, flag: bool, right: seq<bool>)
    ensures Around(left + Flags(n1, flag) + right, left + Flags(n2, flag) + right, |left|, n1, n2, flag)
  {
  }

  lemma {:induction false} AroundPrefix(p: seq<bool>, m1: seq<bool>, m2: seq<bool>, lo: nat, n1: nat, n2: nat, flag: bool)
    requires Around(m1, m2, lo, n1, n2, flag)
    ensures Around(p + m1, p + m2, |p| + lo, n1, n2, flag)
  {
    assert (p + m1)[..|p| + lo] == p + m1[..lo] && (p + m2)[..|p| + lo] == p + m2[..lo];
    assert (p + m1)[|p| + lo + n1..] == m1[lo + n1..] && (p + m2)[|p| + lo + n2..] == m2[lo + n2..];
    assert (p + m1)[|p| + lo..|p| + lo + n1] == m1[lo..lo + n1] && (p + m2)[|p| + lo..|p| + lo + n2] == m2[lo..lo + n2];
  }

  lemma {:induction false} LineMaskEdit(u: string, b1: string, b2: string, v: string, st: LineState) returns (flag: bool)
    requires Brackets(b1) && Brackets(b2)
    ensures Around(LineMask(u + b1 + v, st), LineMask(u + b2 + v, st), |u|, |b1|, |b2|, flag)
    decreases |u|
  {
    hide LineMask, Around, StateFrom, LineAfter, LineMasked, Brackets;
    if '\n' in u {
      var n := LineLen(u);
      FirstLine(u, b1, v, st);
      FirstLine(u, b2, v, st);
      flag := LineMaskEdit(u[n..], b1, b2, v, LineAfter(st, u[..n]));
      AroundPrefix(Flags(n, LineMasked(st, u[..n])), LineMask(u[n..] + b1 + v, LineAfter(st, u[..n])),
                   LineMask(u[n..] + b2 + v, LineAfter(st, u[..n])), |u| - n, |b1|, |b2|, flag);
    } else {
      flag := StateFrom(st, u).previousMasked;
      BlockLine(u, b1, v, st);
      BlockLine(u, b2, v, st);
      var n := LineLen(v);
      AroundBlocks(Flags(|u|, flag), |b1|, |b2|, flag, Flags(n, flag) + LineMask(v[n..], StateFrom(st, u)));
    }
  }

  lemma {:induction false} FirstLine(u: string, b: string, v: string, st: LineState)
    requires '\n' in u
    ensures var n := LineLen(u);
      LineMask(u + b + v, st) == Flags(n, LineMasked(st, u[..n])) + LineMask(u[n..] + b + v, LineAfter(st, u[..n]))
  {
    var n := LineLen(u);
    ConcatAssoc(u, b, v);
    LineLenAppend(u, b + v);
    assert (u + b + v)[..n] == u[..n];
    assert (u + b + v)[n..] == u[n..] + b + v;
  }

  lemma {:induction false} BlockLine(u: string, b: string, v: string, st: LineState)
    requires Brackets(b) && '\n' !in u
    ensures var n, st' := LineLen(v), StateFrom(st, u);
      LineMask(u + b + v, st)
      == Flags(|u|, st'.previousMasked) + Flags(|b|, st'.previousMasked) + (Flags(n, st'.previousMasked) + LineMask(v[n..], st'))
  {
    hide LineMasked, LineAfter, StateFrom, LineMask;
    var n := LineLen(v);
    assert '\n' !in u + b;
    LineLenAppend(u + b, v);
    JoinAtLine(u + b, v, n);
    LineMaskSplit(u + b + v[..n], v[n..], st);
    LineReads(st, u, b, v[..n]);
    assert LineMasked(st, u + b + v[..n]) == StateFrom(st, u).previousMasked by { MaskedIsRemembered(st, u + b + v[..n]); }
    FlagsOfLine(|u|, |b|, n, StateFrom(st, u).previousMasked, LineMask(v[n..], StateFrom(st, u)));
  }

  lemma {:induction false} MaskedIsRemembered(st: LineState, raw: string)
    ensures LineAfter(st, raw).previousMasked == LineMasked(st, raw)
  {
  }

  lemma {:induction false} JoinAtLine(p: string, v: string, n: nat)
    requires n <= |v|
    ensures p + v == p + v[..n] + v[n..]
  {
  }

  lemma {:induction false} LineMaskSplit(a: string, rest: string, st: LineState)
    requires a != [] && LineLen(a + rest) == |a|
    ensures LineMask(a + rest, st) == Flags(|a|, LineMasked(st, a)) + LineMask(rest, LineAfter(st, a))
  {
    assert (a + rest)[..|a|] == a && (a + rest)[|a|..] == rest;
  }

  lemma {:induction false} FlagsOfLine(i: nat, j: nat, k: nat, f: bool, rest: seq<bool>)
    ensures Flags(i + j + k, f) + rest == Flags(i, f) + Flags(j, f) + (Flags(k, f) + rest)
  {
    assert Flags(i + j + k, f) == Flags(i, f) + Flags(j, f) + Flags(k, f);
    ConcatAssoc(Flags(i, f) + Flags(j, f), Flags(k, f), rest);
  }

  // ----- Code spans -----

  lemma {:induction false} EscapedBefore(u: string, w: string, k: nat)
    requires k <= |u|
    ensures Escaped(u + w, k) <==> Escaped(u, k)
  {
    if k > 0 {
      EscapedBefore(u, w, k - 1);
    }
  }

  /** Behind a character that is no backslash, escapes start afresh. */
  lemma {:induction false} EscapedBehind(p: string, v: string, k: nat)
    requires k <= |v| && p != [] && p[|p| - 1] != '\\'
    ensures Escaped(p + v, |p| + k) <==> Escaped(v, k)
  {
    if k > 0 {
      EscapedBehind(p, v, k - 1);
      assert (p + v)[|p| + k - 1] == v[k - 1];
    } else {
      assert (p + v)[|p| - 1] == p[|p| - 1];
    }
  }

  lemma {:induction false} TicksBehind(p: string, v: string, k: nat)
    requires k <= |v|
    ensures Ticks(p + v, |p| + k) == Ticks(v, k)
    decreases |v| - k
  {
    if k < |v| {
      assert (p + v)[|p| + k] == v[k];
      TicksBehind(p, v, k + 1);
    }
  }

  lemma {:induction false} TicksBefore(u: string, w: string, k: nat)
    requires k <= |u| && w != [] && w[0] != '`'
    ensures Ticks(u + w, k) == Ticks(u, k)
    decreases |u| - k
  {
    if k < |u| {
      assert (u + w)[k] == u[k];
      TicksBefore(u, w, k + 1);
    }
  }

  lemma {:induction false} CloseBehind(p: string, bp: seq<bool>, v: string, bv: seq<bool>, k: nat, n: nat)
    requires |bp| == |p| && |bv| == |v| && k <= |v|
    ensures var r := CloseTicks(v, bv, k, n);
      CloseTicks(p + v, bp + bv, |p| + k, n) == if r.Some? then Some(|p| + r.value) else None
    decreases |v| - k
  {
    if k < |v| {
      assert (p + v)[|p| + k] == v[k] && (bp + bv)[|p| + k] == bv[k];
      if bv[k] || v[k] != '`' {
        CloseBehind(p, bp, v, bv, k + 1, n);
      } else {
        TicksBehind(p, v, k);
        if Ticks(v, k) != n {
          CloseBehind(p, bp, v, bv, k + Ticks(v, k), n);
        }
      }
    }
  }

  lemma {:induction false} FlagsBehind(p: string, bp: seq<bool>, v: string, bv: seq<bool>, k: nat)
    requires |bp| == |p| && |bv| == |v| && k < |v| && p != [] && p[|p| - 1] != '\\'
    ensures SpanFlags(p + v, bp + bv, |p| + k) == SpanFlags(v, bv, k)
  {
    hide CloseTicks, Ticks, Escaped;
    EscapedBehind(p, v, k);
    assert (p + v)[|p| + k] == v[k] && (bp + bv)[|p| + k] == bv[k];
    if SpanStarts(v, bv, k) {
      TicksBehind(p, v, k);
      CloseBehind(p, bp, v, bv, k + Ticks(v, k), Ticks(v, k));
    }
  }

  lemma {:induction false} SpanBehind(p: string, bp: seq<bool>, v: string, bv: seq<bool>, k: nat)
    requires |bp| == |p| && |bv| == |v| && k <= |v| && p != [] && p[|p| - 1] != '\\'
    ensures SpanMask(p + v, bp + bv, |p| + k) == SpanMask(v, bv, k)
    decreases |v| - k
  {
    hide SpanFlags;
    if k < |v| {
      FlagsBehind(p, bp, v, bv, k);
      SpanBehind(p, bp, v, bv, k + |SpanFlags(v, bv, k)|);
    }
  }

  // ----- A block between two pieces of text -----

  /** What stands around a block, with its base mask. */
  datatype Gap = Gap(u: string, bu: seq<bool>, v: string, bv: seq<bool>)

  predicate Fits(g: Gap) {
    |g.bu| == |g.u| && |g.bv| == |g.v|
  }

  function TextOf(g: Gap, b: string): (s: string)
    ensures |s| == |g.u| + |b| + |g.v|
  {
    g.u + b + g.v
  }

  /** The base mask leaves the block free. */
  function BaseOf(g: Gap, b: string): (base: seq<bool>)
    requires Fits(g)
    ensures |base| == |TextOf(g, b)|
  {
    g.bu + Flags(|b|, false) + g.bv
  }

  lemma {:induction false} ReadFront(g: Gap, b: string, i: nat)
    requires Fits(g) && Brackets(b) && i <= |g.u|
    ensures |b| >= 2 && (Escaped(TextOf(g, b), i) <==> Escaped(g.u, i))
    ensures i < |g.u| ==> TextOf(g, b)[i] == g.u[i] && BaseOf(g, b)[i] == g.bu[i]
    ensures i == |g.u| ==> TextOf(g, b)[i] == '['
  {
    ConcatAssoc(g.u, b, g.v);
    EscapedBefore(g.u, b + g.v, i);
  }

  lemma {:induction false} ReadIn(g: Gap, b: string, k: nat)
    requires Fits(g) && Brackets(b) && k < |b|
    ensures TextOf(g, b)[|g.u| + k] == b[k] && b[k] != '`' && !BaseOf(g, b)[|g.u| + k]
  {
  }

  /** The text as a block with its front, and what follows. */
  lemma {:induction false} FrontOf(g: Gap, b: string)
    requires Fits(g) && Brackets(b)
    ensures TextOf(g, b) == (g.u + b) + g.v && BaseOf(g, b) == (g.bu + Flags(|b|, false)) + g.bv
    ensures |g.u + b| == |g.bu + Flags(|b|, false)| == |g.u| + |b| && |b| >= 2 && (g.u + b)[|g.u + b| - 1] == ']'
  {
  }

  lemma {:induction false} CloseIn(g: Gap, b: string, k: nat, n: nat)
    requires Fits(g) && Brackets(b) && k <= |g.v|
    ensures var r := CloseTicks(g.v, g.bv, k, n);
      CloseTicks(TextOf(g, b), BaseOf(g, b), |g.u| + |b| + k, n) == if r.Some? then Some(|g.u| + |b| + r.value) else None
  {
    hide CloseTicks, TextOf, BaseOf;
    FrontOf(g, b);
    CloseBehind(g.u + b, g.bu + Flags(|b|, false), g.v, g.bv, k, n);
  }

  /** A block has no backticks to close with. */
  lemma {:induction false} CloseSkips(g: Gap, b: string, k: nat, n: nat)
    requires Fits(g) && Brackets(b) && k <= |b|
    ensures CloseTicks(TextOf(g, b), BaseOf(g, b), |g.u| + k, n) == CloseTicks(TextOf(g, b), BaseOf(g, b), |g.u| + |b|, n)
    decreases |b| - k
  {
    hide TextOf, BaseOf, Ticks, Brackets;
    if k < |b| {
      ReadIn(g, b, k);
      CloseSkips(g, b, k + 1, n);
    }
  }

  /** A search that starts before the block: it ends before it, or behind it at a place that
      only depends on what follows. */
  lemma {:induction false} CloseBefore(g: Gap, b: string, k: nat, n: nat)
    requires Fits(g) && Brackets(b) && k <= |g.u|
    ensures CloseTicks(TextOf(g, b), BaseOf(g, b), k, n)
         == var r := CloseTicks(g.u, g.bu, k, n);
            if r.Some? then r
            else var q := CloseTicks(g.v, g.bv, 0, n); if q.Some? then Some(|g.u| + |b| + q.value) else None
    decreases |g.u| - k
  {
    hide TextOf, BaseOf, Ticks, Brackets, Escaped;
    if k == |g.u| {
      CloseSkips(g, b, 0, n);
      CloseIn(g, b, 0, n);
    } else {
      ReadFront(g, b, k);
      TicksFront(g, b, k);
      if g.bu[k] || g.u[k] != '`' {
        CloseBefore(g, b, k + 1, n);
      } else if Ticks(g.u, k) != n {
        CloseBefore(g, b, k + Ticks(g.u, k), n);
      }
    }
  }

  lemma {:induction false} TicksFront(g: Gap, b: string, k: nat)
    requires Brackets(b) && k <= |g.u|
    ensures Ticks(TextOf(g, b), k) == Ticks(g.u, k)
  {
    ConcatAssoc(g.u, b, g.v);
    TicksBefore(g.u, b + g.v, k);
  }

  lemma {:induction false} OneFlag(n: nat, rest: seq<bool>)
    ensures [false] + (Flags(n, false) + rest) == Flags(n + 1, false) + rest
  {
    assert Flags(n + 1, false) == [false] + Flags(n, false);
  }

  lemma {:induction false} SpanPlain(s: string, base: seq<bool>, i: nat)
    requires |base| == |s| && i < |s| && s[i] != '`' && !base[i]
    ensures SpanMask(s, base, i) == [false] + SpanMask(s, base, i + 1)
  {
  }

  lemma {:induction false} SpanSkips(g: Gap, b: string, k: nat)
    requires Fits(g) && Brackets(b) && k <= |b|
    ensures SpanMask(TextOf(g, b), BaseOf(g, b), |g.u| + k) == Flags(|b| - k, false) + SpanMask(g.v, g.bv, 0)
    decreases |b| - k
  {
    hide CloseTicks, Ticks, Escaped, TextOf, BaseOf, Brackets, SpanMask;
    if k < |b| {
      ReadIn(g, b, k);
      SpanSkips(g, b, k + 1);
      SpanPlain(TextOf(g, b), BaseOf(g, b), |g.u| + k);
      OneFlag(|b| - k - 1, SpanMask(g.v, g.bv, 0));
    } else {
      FrontOf(g, b);
      SpanBehind(g.u + b, g.bu + Flags(|b|, false), g.v, g.bv, 0);
      assert Flags(0, false) + SpanMask(g.v, g.bv, 0) == SpanMask(g.v, g.bv, 0);
    }
  }

  /** One turn of the span scan in front of a block: what it writes, or None when it marks
      a span across the block. */
  function SpanStep(g: Gap, i: nat): (flags: Option<seq<bool>>)
    requires Fits(g) && i < |g.u|
    ensures flags.Some? ==> 1 <= |flags.value| <= |g.u| - i
  {
    if !SpanStarts(g.u, g.bu, i) then Some([g.bu[i]])
    else
      var n := Ticks(g.u, i);
      var near := CloseTicks(g.u, g.bu, i + n, n);
      if near.Some? then Some(Flags(near.value - i, true))
      else if CloseTicks(g.v, g.bv, 0, n).Some? then None
      else Some([g.bu[i]])
  }

  lemma {:induction false} SpanTurn(g: Gap, b: string, i: nat)
    requires Fits(g) && Brackets(b) && i < |g.u|
    ensures var written, flags := SpanFlags(TextOf(g, b), BaseOf(g, b), i), SpanStep(g, i);
      if flags.None? then |written| > |g.u| - i && written[|g.u| - i] else written == flags.value
  {
    hide CloseTicks, Ticks, Escaped, TextOf, BaseOf, Brackets;
    ReadFront(g, b, i);
    if SpanStarts(g.u, g.bu, i) {
      TicksFront(g, b, i);
      CloseBefore(g, b, i + Ticks(g.u, i), Ticks(g.u, i));
    }
  }

  /** Code spans around a block that stays outside them do not depend on the block. */
  lemma {:induction false} SpanEdit(g: Gap, b1: string, b2: string, i: nat)
    requires Fits(g) && Brackets(b1) && Brackets(b2) && i <= |g.u|
    ensures var m1 := SpanMask(TextOf(g, b1), BaseOf(g, b1), i);
      m1[|g.u| - i] || Around(m1, SpanMask(TextOf(g, b2), BaseOf(g, b2), i), |g.u| - i, |b1|, |b2|, false)
    decreases |g.u| - i
  {
    hide TextOf, BaseOf, SpanStep, SpanFlags, Around, Brackets;
    if i == |g.u| {
      SpanSkips(g, b1, 0);
      SpanSkips(g, b2, 0);
      AroundBlocks([], |b1|, |b2|, false, SpanMask(g.v, g.bv, 0));
      assert [] + Flags(|b1|, false) == Flags(|b1|, false) && [] + Flags(|b2|, false) == Flags(|b2|, false);
    } else {
      FrontOf(g, b1);
      SpanTurn(g, b1, i);
      SpanTurn(g, b2, i);
      var flags := SpanStep(g, i);
      if flags.Some? {
        var next := i + |flags.value|;
        SpanEdit(g, b1, b2, next);
        var m1 := SpanMask(TextOf(g, b1), BaseOf(g, b1), next);
        var m2 := SpanMask(TextOf(g, b2), BaseOf(g, b2), next);
        if !m1[|g.u| - next] {
          AroundPrefix(flags.value, m1, m2, |g.u| - next, |b1|, |b2|, false);
        }
      }
    }
  }
}
