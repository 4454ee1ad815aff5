/** protectedSpans as the source runs it: one mask array, written by three passes. */
module ProtectedSpans {
  import opened GoText
  import opened Markdown
  import LineMeaning
  import ProtectMeaning

  /** mark(a, b) */
  method MarkRange(mask: array<bool>, a: nat, b: nat)
    requires a <= b <= mask.Length
    modifies mask
    ensures mask[..] == old(mask[..a]) + Flags(b - a, true) + old(mask[b..])
  {
    for i := a to b
      invariant mask[..a] == old(mask[..a]) && mask[b..] == old(mask[b..])
      invariant forall k :: a <= k < i ==> mask[k]
    {
      mask[i] := true;
    }
    assert mask[..] == mask[..a] + mask[a..b] + mask[b..];
  }

  /** One line: whether it is masked, and the state after it. */
  method ReadLine(st: LineState, raw: string) returns (masked: bool, st': LineState)
    ensures masked == LineMasked(st, raw) && st' == LineAfter(st, raw)
  {
    var line := TrimSpace(raw);
    var inList := st.inList;
    if ListStart(line) {
      inList := true;
    } else if line != [] && Indent(raw) == 0 {
      inList := false;
    }
    var run := FenceRun(line);
    var fence := st.fence;
    masked := false;
    if fence.Some? {
      masked := true;
      if run > 0 && run >= fence.value.len && line[0] == fence.value.c && TrimSpace(line[run..]) == [] {
        fence := None;
      }
    } else if run >= 3 {
      fence := Some(Fence(line[0], run));
      masked := true;
    } else if !inList && (st.previousBlank || st.previousMasked) && (HasPrefix(raw, "    ") || HasPrefix(raw, "\t")) {
      masked := true;
    }
    st' := LineState(fence, inList, line == [], masked);
  }

  /** The lines in front of pos are masked, the rest is untouched. */
  ghost predicate LinesDone(s: string, m: seq<bool>, pos: nat, st: LineState) {
    && |m| == |s| && pos <= |s| && m[pos..] == Flags(|s| - pos, false)
    && m[..pos] + LineMask(s[pos..], st) == LineMask(s, START)
  }

  /** The first pass: fences and indented code, line by line. */
  method MaskLines(s: string, mask: array<bool>)
    requires mask.Length == |s| && mask[..] == Flags(|s|, false)
    modifies mask
    ensures mask[..] == LineMask(s, START) == Flatten(LineMeaning.LineFlags(LineMeaning.Lines(s)))
  {
    hide LinesDone, LineMasked, LineAfter, LineMask;
    var st := START;
    var pos := 0;
    LinesStart(s, mask[..]);
    while pos < |s|
      invariant 0 <= pos <= |s| && LinesDone(s, mask[..], pos, st)
    {
      var end := pos + LineLen(s[pos..]);
      LineWritten(s, mask[..], pos, end, st, LineMasked(st, s[pos..end]));
      var masked;
      masked, st := ReadLine(st, s[pos..end]);
      if masked {
        MarkRange(mask, pos, end);
      }
      pos := end;
    }
    LinesEnd(s, mask[..], st);
    LineMeaning.LineMaskMeaning(s);
  }

  lemma {:induction false} LinesStart(s: string, m: seq<bool>)
    requires m == Flags(|s|, false)
    ensures LinesDone(s, m, 0, START)
  {
    assert s[0..] == s && m[..0] == [] && m[0..] == m;
    assert [] + LineMask(s, START) == LineMask(s, START);
  }

  lemma {:induction false} LinesEnd(s: string, m: seq<bool>, st: LineState)
    requires LinesDone(s, m, |s|, st)
    ensures m == LineMask(s, START)
  {
    assert m[..|s|] == m && s[|s|..] == [];
    assert m + [] == m;
  }

  lemma {:induction false} LineWritten(s: string, before: seq<bool>, pos: nat, end: nat, st: LineState, masked: bool)
    requires LinesDone(s, before, pos, st) && pos < end <= |s|
    requires LineLen(s[pos..]) == end - pos && masked == LineMasked(st, s[pos..end])
    ensures |before| == |s|
    ensures LinesDone(s, if masked then before[..pos] + Flags(end - pos, true) + before[end..] else before, end, LineAfter(st, s[pos..end]))
  {
    hide LineMasked, LineAfter;
    var after := if masked then before[..pos] + Flags(end - pos, true) + before[end..] else before;
    assert s[pos..][..end - pos] == s[pos..end] && s[pos..][end - pos..] == s[end..];
    assert before[end..] == before[pos..][end - pos..];
    assert before[pos..end] == before[pos..][..end - pos];
    assert after[end..] == before[end..];
    assert after[..end] == before[..pos] + Flags(end - pos, masked);
    ConcatAssoc(before[..pos], Flags(end - pos, masked), LineMask(s[end..], LineAfter(st, s[pos..end])));
  }

  // ----- Code spans -----

  method CountTicks(s: string, i: nat) returns (n: nat)
    requires i <= |s|
    ensures n == Ticks(s, i)
  {
    n := 0;
    while i + n < |s| && s[i + n] == '`'
      invariant i + n <= |s| && Ticks(s, i) == n + Ticks(s, i + n)
    {
      n := n + 1;
    }
  }

  /** The end of the closing run from j on, if there is one. */
  method FindClose(s: string, mask: array<bool>, j: nat, n: nat) returns (r: Option<nat>)
    requires mask.Length == |s| && j <= |s|
    ensures r == CloseTicks(s, mask[..], j, n)
  {
    var k := j;
    while k < |s|
      invariant j <= k <= |s| && CloseTicks(s, mask[..], j, n) == CloseTicks(s, mask[..], k, n)
      decreases |s| - k
    {
      if mask[k] || s[k] != '`' {
        k := k + 1;
      } else {
        var m := CountTicks(s, k);
        if m == n {
          return Some(k + m);
        }
        k := k + m;
      }
    }
    return None;
  }

  /** A search looks only at the mask behind its start. */
  lemma {:induction false} CloseReads(s: string, m1: seq<bool>, m2: seq<bool>, j: nat, n: nat)
    requires |m1| == |m2| == |s| && j <= |s| && m1[j..] == m2[j..]
    ensures CloseTicks(s, m1, j, n) == CloseTicks(s, m2, j, n)
    decreases |s| - j
  {
    if j < |s| {
      assert m1[j] == m1[j..][0] && m2[j] == m2[j..][0];
      forall k | j <= k <= |s| ensures m1[k..] == m2[k..] { assert m1[k..] == m1[j..][k - j..] && m2[k..] == m2[j..][k - j..]; }
      if m1[j] || s[j] != '`' {
        CloseReads(s, m1, m2, j + 1, n);
      } else if Ticks(s, j) != n {
        CloseReads(s, m1, m2, j + Ticks(s, j), n);
      }
    }
  }

  /** The spans in front of i are masked, the rest is as before the pass. */
  ghost predicate SpansDone(s: string, base: seq<bool>, m: seq<bool>, i: nat) {
    && |m| == |base| == |s| && i <= |s| && m[i..] == base[i..] && m[..i] + SpanMask(s, base, i) == SpanMask(s, base, 0)
  }

  lemma {:induction false} SpanWritten(s: string, base: seq<bool>, m: seq<bool>, i: nat)
    requires SpansDone(s, base, m, i) && i < |s|
    ensures var flags := SpanFlags(s, base, i);
      SpansDone(s, base, m[..i] + flags + m[i + |flags|..], i + |flags|)
  {
    hide SpanFlags;
    var flags := SpanFlags(s, base, i);
    var next := i + |flags|;
    var after := m[..i] + flags + m[next..];
    assert after[next..] == m[next..] == m[i..][|flags|..];
    assert base[next..] == base[i..][|flags|..];
    assert after[..next] == m[..i] + flags;
    ConcatAssoc(m[..i], flags, SpanMask(s, base, next));
  }

  /** The second pass: code spans. */
  method MaskSpans(s: string, mask: array<bool>)
    requires mask.Length == |s|
    modifies mask
    ensures mask[..] == SpanMask(s, old(mask[..]), 0)
  {
    hide SpanMask, SpansDone;
    ghost var base := mask[..];
    var i := 0;
    assert SpansDone(s, base, mask[..], 0) by { SpansStart(s, base); }
    while i < |s|
      invariant 0 <= i <= |s| && SpansDone(s, base, mask[..], i)
      decreases |s| - i
    {
      i := SpanAt(s, mask, i, base);
    }
    SpansEnd(s, base, mask[..]);
  }

  lemma {:induction false} SpansStart(s: string, base: seq<bool>)
    requires |base| == |s|
    ensures SpansDone(s, base, base, 0)
  {
    assert base[..0] + SpanMask(s, base, 0) == SpanMask(s, base, 0);
  }

  lemma {:induction false} SpansEnd(s: string, base: seq<bool>, m: seq<bool>)
    requires SpansDone(s, base, m, |s|)
    ensures m == SpanMask(s, base, 0)
  {
    assert m[..|s|] + SpanMask(s, base, |s|) == m;
  }

  /** The span at i, if one starts and closes there. */
  method SpanAt(s: string, mask: array<bool>, i: nat, ghost base: seq<bool>) returns (next: nat)
    requires mask.Length == |s| && i < |s| && SpansDone(s, base, mask[..], i)
    modifies mask
    ensures i < next <= |s| && SpansDone(s, base, mask[..], next)
  {
    hide SpanMask, CloseTicks, Escaped, Ticks;
    SpanWritten(s, base, mask[..], i);
    assert mask[i] == base[i] by { assert mask[..][i..][0] == mask[i] && base[i..][0] == base[i]; }
    OneKept(mask[..], i);
    if mask[i] || s[i] != '`' || Escaped(s, i) {
      return i + 1;
    }
    var n := CountTicks(s, i);
    var k := FindClose(s, mask, i + n, n);
    assert mask[..][i + n..] == base[i + n..] by { assert mask[..][i + n..] == mask[..][i..][n..] && base[i + n..] == base[i..][n..]; }
    CloseReads(s, mask[..], base, i + n, n);
    TicksMove(s, i);
    if k.None? {
      return i + 1;
    }
    MarkRange(mask, i, k.value);
    return k.value;
  }

  lemma {:induction false} TicksMove(s: string, i: nat)
    requires i < |s| && s[i] == '`'
    ensures Ticks(s, i) >= 1
  {
  }

  lemma {:induction false} OneKept(m: seq<bool>, i: nat)
    requires i < |m|
    ensures m[..i] + [m[i]] + m[i + 1..] == m
  {
  }

  // ----- Reference definitions -----

  lemma {:induction false} OneMoreLine(lower: CaseMap, s: string, pos: nat)
    requires pos < |s|
    ensures var end := pos + LineLen(s[pos..]);
      pos < end <= |s| && Definitions(lower, s[pos..]) == LabelOf(lower, s[pos..end]) + Definitions(lower, s[end..])
  {
    var end := pos + LineLen(s[pos..]);
    assert s[pos..][..end - pos] == s[pos..end] && s[pos..][end - pos..] == s[end..];
  }

  method FindDefinitions(lower: CaseMap, s: string) returns (defs: set<string>)
    ensures defs == Definitions(lower, s)
  {
    hide Definitions, DefinedBy, Lower, LineLen;
    defs := {};
    var pos := 0;
    assert s[0..] == s;
    while pos < |s|
      invariant 0 <= pos <= |s| && defs + Definitions(lower, s[pos..]) == Definitions(lower, s)
    {
      var end := pos + LineLen(s[pos..]);
      var defined := DefinedBy(s[pos..end]);
      OneMoreLine(lower, s, pos);
      if defined.Some? {
        defs := defs + {Lower(lower, defined.value)};
      }
      pos := end;
    }
    assert s[pos..] == [];
    NothingDefined(lower);
  }

  lemma {:induction false} NothingDefined(lower: CaseMap)
    ensures Definitions(lower, []) == {}
  {
  }

  // ----- Links -----

  /** The end of a destination opened at k. */
  method FindParen(s: string, k: nat) returns (r: nat)
    requires k <= |s|
    ensures r == CloseParen(s, k, 1)
  {
    var nesting := 1;
    r := k;
    while r < |s| && nesting > 0
      invariant k <= r <= |s| && nesting >= 0 && CloseParen(s, k, 1) == CloseParen(s, r, nesting)
    {
      if !Escaped(s, r) {
        if s[r] == '(' {
          nesting := nesting + 1;
        }
        if s[r] == ')' {
          nesting := nesting - 1;
        }
      }
      r := r + 1;
    }
  }

  /** Where the protection of a reference opened at start begins. */
  method FindReference(s: string, start: nat) returns (r: nat)
    requires start <= |s|
    ensures r == ReferenceStart(s, start)
  {
    if start > 0 && s[start - 1] == ']' {
      var k: nat := start - 1;
      while k > 0 && s[k - 1] != '\n'
        invariant k <= start - 1 && OpenBefore(s, start - 1) == OpenBefore(s, k)
      {
        k := k - 1;
        if s[k] == '[' && !Escaped(s, k) {
          return k;
        }
      }
    }
    return start;
  }

  /** The links in front of i are masked, the rest is as before the pass. */
  ghost predicate LinksDone(p: Page, m: seq<bool>, i: nat, opens: seq<nat>) {
    && |m| == |p.base| == |p.s| && i <= |p.s| && Opens(opens, i) && m[i..] == p.base[i..]
    && LinkMask(p, i, opens, m[..i]) == LinkMask(p, 0, [], [])
  }

  lemma {:induction false} LinkWritten(p: Page, m: seq<bool>, i: nat, opens: seq<nat>)
    requires LinksDone(p, m, i, opens) && i < |p.s|
    ensures var t := LinkTurn(p, i, opens, m[..i]); LinksDone(p, t.done + m[t.next..], t.next, t.opens)
  {
    hide LinkTurn;
    var t := LinkTurn(p, i, opens, m[..i]);
    var after := t.done + m[t.next..];
    assert after[..t.next] == t.done;
    assert after[t.next..] == m[i..][t.next - i..] && p.base[t.next..] == p.base[i..][t.next - i..];
  }

  /** What a turn writes, on the whole mask. */
  lemma {:induction false} TurnOnMask(p: Page, m: seq<bool>, i: nat, from: nat, end: nat)
    requires |m| == |p.base| == |p.s| && i < |m| && m[i] == p.base[i] && from <= i < end <= |m|
    ensures m[..i] + [p.base[i]] + m[i + 1..] == m
    ensures MarkFrom(m[..i], from, end) + m[end..] == m[..from] + Flags(end - from, true) + m[end..]
  {
    assert m[..i][..from] == m[..from];
  }

  /** The bracket opened at `start` closes at i. */
  method CloseAt(lower: CaseMap, s: string, defs: set<string>, mask: array<bool>, i: nat, start: nat, ghost rest: seq<nat>, ghost base: seq<bool>) returns (next: nat)
    requires mask.Length == |s| == |base| && start < i < |s| && Opens(rest, i) && mask[i] == base[i]
    modifies mask
    ensures var t := CloseTurn(Page(lower, s, base, defs), i, start, rest, old(mask[..i]));
      next == t.next && mask[..] == t.done + old(mask[..])[t.next..]
  {
    hide CloseParen, ReferenceStart, Lower, MarkFrom;
    ghost var p, m := Page(lower, s, base, defs), mask[..];
    assert m[..i] == mask[..i] && m[i] == mask[i];
    var j := i + 1;
    if j < |s| && s[j] == '(' {
      var k := FindParen(s, j + 1);
      TurnOnMask(p, m, i, start, k);
      SplitMask(mask, start, k);
      MarkRange(mask, start, k);
      return k;
    }
    if Lower(lower, s[start + 1..i]) in defs {
      var from := FindReference(s, start);
      TurnOnMask(p, m, i, from, j);
      SplitMask(mask, from, j);
      MarkRange(mask, from, j);
      return j;
    }
    TurnOnMask(p, m, i, i, j);
    return j;
  }

  lemma {:induction false} SplitMask(mask: array<bool>, a: nat, b: nat)
    requires a <= b <= mask.Length
    ensures mask[..a] == mask[..][..a] && mask[b..] == mask[..][b..]
  {
  }

  /** The third pass: link labels, destinations and references. */
  method MaskLinks(lower: CaseMap, s: string, defs: set<string>, mask: array<bool>)
    requires mask.Length == |s|
    modifies mask
    ensures mask[..] == LinkMask(Page(lower, s, old(mask[..]), defs), 0, [], [])
  {
    hide LinkMask, LinksDone, LinkTurn, CloseTurn;
    ghost var p := Page(lower, s, mask[..], defs);
    var opens: seq<nat> := [];
    var i := 0;
    LinksStart(p, mask[..]);
    while i < |s|
      invariant 0 <= i <= |s| && LinksDone(p, mask[..], i, opens)
      decreases |s| - i
    {
      i, opens := LinkAt(lower, s, defs, mask, i, opens, p);
    }
    LinksEnd(p, mask[..], opens);
  }

  lemma {:induction false} LinksStart(p: Page, m: seq<bool>)
    requires |p.base| == |p.s| && m == p.base
    ensures LinksDone(p, m, 0, [])
  {
    assert m[..0] == [];
  }

  lemma {:induction false} LinksEnd(p: Page, m: seq<bool>, opens: seq<nat>)
    requires LinksDone(p, m, |p.s|, opens)
    ensures m == LinkMask(p, 0, [], [])
  {
    assert m[..|p.s|] == m;
  }

  lemma {:induction false} CloseOpens(p: Page, i: nat, start: nat, rest: seq<nat>, done: seq<bool>)
    requires |p.base| == |p.s| && |done| == i < |p.s| && start < i && Opens(rest, i)
    ensures CloseTurn(p, i, start, rest, done).opens == rest
  {
  }

  lemma {:induction false} LinksFacts(p: Page, m: seq<bool>, i: nat, opens: seq<nat>)
    requires LinksDone(p, m, i, opens) && i < |p.s|
    ensures |m| == |p.base| == |p.s| && Opens(opens, i) && m[i] == p.base[i]
  {
    assert m[i..][0] == p.base[i..][0];
  }

  /** One turn of the bracket scan. */
  method LinkAt(lower: CaseMap, s: string, defs: set<string>, mask: array<bool>, i: nat, opens: seq<nat>, ghost p: Page)
    returns (next: nat, opens': seq<nat>)
    requires mask.Length == |s| && i < |s| && p == Page(lower, s, p.base, defs) && LinksDone(p, mask[..], i, opens)
    modifies mask
    ensures i < next <= |s| && LinksDone(p, mask[..], next, opens')
  {
    hide LinkMask, CloseTurn, Escaped, Lower, LinksDone;
    ghost var m := mask[..];
    LinksFacts(p, m, i, opens);
    LinkWritten(p, m, i, opens);
    assert mask[i] == m[i] && m[..i] == mask[..i];
    TurnOnMask(p, m, i, i, i + 1);
    assert (m[..i] + [p.base[i]]) + m[i + 1..] == m;
    if mask[i] || Escaped(s, i) {
      return i + 1, opens;
    }
    if s[i] == '[' {
      return i + 1, opens + [i];
    }
    if s[i] != ']' || opens == [] {
      return i + 1, opens;
    }
    opens' := opens[..|opens| - 1];
    ghost var t := CloseTurn(p, i, opens[|opens| - 1], opens', m[..i]);
    assert LinkTurn(p, i, opens, m[..i]) == t;
    next := CloseAt(lower, s, defs, mask, i, opens[|opens| - 1], opens', p.base);
    assert mask[..] == t.done + m[t.next..];
    CloseOpens(p, i, opens[|opens| - 1], opens', m[..i]);
  }

  /** protectedSpans: exactly the lines of code, the code spans, the links and the references
      of the text. */
  method Compute(lower: CaseMap, s: string) returns (mask: array<bool>)
    ensures fresh(mask) && mask[..] == Protect(lower, s)
    ensures forall q :: 0 <= q < |s| ==> (mask[q] <==> ProtectMeaning.IsProtected(lower, s, q))
  {
    hide Protect, LineMask, SpanMask, LinkMask, Definitions, ProtectMeaning.IsProtected;
    mask := new bool[|s|](_ => false);
    assert mask[..] == Flags(|s|, false);
    MaskLines(s, mask);
    MaskSpans(s, mask);
    var defs := FindDefinitions(lower, s);
    MaskLinks(lower, s, defs, mask);
    ProtectionIs(lower, s);
    forall q | 0 <= q < |s| ensures mask[q] <==> ProtectMeaning.IsProtected(lower, s, q) {
      ProtectMeaning.ProtectIsMeant(lower, s, q);
      assert mask[q] == mask[..][q];
    }
  }

  lemma {:induction false} ProtectionIs(lower: CaseMap, s: string)
    ensures Protect(lower, s) == LinkMask(Page(lower, s, SpanMask(s, LineMask(s, START), 0), Definitions(lower, s)), 0, [], [])
  {
  }
}
