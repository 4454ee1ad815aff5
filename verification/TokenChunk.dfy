/** Token-budget chunking of the Map input (token_chunk.go): greedy contiguous packing
    under a token budget and a message cap, and its optimality. */
module TokenChunk {
  import opened GoText

  const MIN_CHUNK_TOKEN_BUDGET := 2000
  const HARD_MESSAGE_BACKSTOP := 200

  datatype Msg = Msg(senderName: string, content: string, citationIndex: int)

  function ItoaInt(n: int): string {
    if n < 0 then "-" + Itoa(-n) else Itoa(n)
  }

  function RenderLine(m: Msg): string {
    "[" + ItoaInt(m.citationIndex) + "] " + m.senderName + ": " + m.content + "\n"
  }

  function DenseRunes(s: string): (n: nat)
    ensures n <= |s|
  {
    if s == [] then 0 else DenseRunes(s[..|s| - 1]) + if s[|s| - 1] as int > 0x7F then 1 else 0
  }

  method ClassifyRunes(s: string) returns (cjk: nat, other: nat)
    ensures cjk == DenseRunes(s) && other == |s| - DenseRunes(s)
  {
    cjk, other := 0, 0;
    for i := 0 to |s|
      invariant cjk == DenseRunes(s[..i]) && other == i - cjk
    {
      assert s[..i + 1][..i] == s[..i];
      if s[i] as int > 0x7F { cjk := cjk + 1; } else { other := other + 1; }
    }
    assert s[..|s|] == s;
  }

  function EstimateTokens(s: string, cjkRatio: int, asciiRatio: int): int {
    TokensOf(DenseRunes(s), |s| - DenseRunes(s), AtLeastOne(cjkRatio), AtLeastOne(asciiRatio))
  }

  /** The estimate from the rune counts: at least one token for a nonempty text. */
  function TokensOf(dense: nat, other: nat, cjkRatio: int, asciiRatio: int): int
    requires cjkRatio >= 1 && asciiRatio >= 1
  {
    var t := dense / cjkRatio + other / asciiRatio;
    if t < 1 && dense + other > 0 then 1 else t
  }

  function Lines(chunk: seq<Msg>): seq<string> {
    seq(|chunk|, i requires 0 <= i < |chunk| => RenderLine(chunk[i]))
  }

  /** The prompt text of a chunk: its rendered lines in order. */
  function Rendered(chunk: seq<Msg>): string {
    Flatten(Lines(chunk))
  }

  /** The limits in force once the defaults and the backstop are applied. */
  datatype Limits = Limits(budget: int, msgCap: int, cjkRatio: int, asciiRatio: int)

  function Effective(budget: int, maxMsgs: int, cjkRatio: int, asciiRatio: int): (l: Limits)
    ensures l.budget >= 1 && 1 <= l.msgCap <= HARD_MESSAGE_BACKSTOP && l.cjkRatio >= 1 && l.asciiRatio >= 1
  {
    Limits(
      if budget < 1 then MIN_CHUNK_TOKEN_BUDGET else budget,
      if maxMsgs <= 0 || maxMsgs > HARD_MESSAGE_BACKSTOP then HARD_MESSAGE_BACKSTOP else maxMsgs,
      AtLeastOne(cjkRatio), AtLeastOne(asciiRatio))
  }

  /** What a chunk must satisfy; only a single message may exceed the budget. */
  predicate Fits(chunk: seq<Msg>, l: Limits) {
    && 1 <= |chunk| <= l.msgCap
    && (|chunk| >= 2 ==> EstimateTokens(Rendered(chunk), l.cjkRatio, l.asciiRatio) <= l.budget)
  }

  predicate AllFit(chunks: seq<seq<Msg>>, l: Limits) {
    forall i :: 0 <= i < |chunks| ==> Fits(chunks[i], l)
  }

  predicate Full(chunk: seq<Msg>, next: seq<Msg>, l: Limits) {
    next != [] && !Fits(chunk + [next[0]], l)
  }

  /** No chunk could have taken the message after it. */
  ghost predicate Maximal(chunks: seq<seq<Msg>>, l: Limits) {
    forall i, j :: 0 <= i < j < |chunks| && j == i + 1 ==> Full(chunks[i], chunks[j], l)
  }

  lemma {:induction false} DenseAppend(a: string, b: string)
    ensures DenseRunes(a + b) == DenseRunes(a) + DenseRunes(b)
  {
    if b == [] {
      assert a + b == a;
    } else {
      assert (a + b)[..|a + b| - 1] == a + b[..|b| - 1];
      DenseAppend(a, b[..|b| - 1]);
    }
  }

  lemma {:induction false} RenderedAppend(a: seq<Msg>, b: seq<Msg>)
    ensures Rendered(a + b) == Rendered(a) + Rendered(b)
  {
    assert Lines(a + b) == Lines(a) + Lines(b);
    FlattenConcat(Lines(a), Lines(b));
  }

  lemma {:induction false} DivMonotone(a: nat, b: nat, d: nat)
    requires a <= b && d >= 1
    ensures a / d <= b / d
  {
    if a / d > b / d {
      assert d * (b / d + 1) <= d * (a / d) by { MulMonotone(d, b / d + 1, a / d); }
    }
  }

  lemma {:induction false} MulMonotone(d: nat, x: nat, y: nat)
    requires x <= y
    ensures d * x <= d * y
  {
    assert d * (y - x) >= 0;
  }

  lemma {:induction false} PartRunes(a: seq<Msg>, b: seq<Msg>, c: seq<Msg>)
    ensures DenseRunes(Rendered(b)) <= DenseRunes(Rendered(a + b + c))
    ensures |Rendered(b)| - DenseRunes(Rendered(b)) <= |Rendered(a + b + c)| - DenseRunes(Rendered(a + b + c))
  {
    RenderedAppend(a, b);
    RenderedAppend(a + b, c);
    DenseAppend(Rendered(a), Rendered(b));
    DenseAppend(Rendered(a + b), Rendered(c));
  }

  lemma {:induction false} EstimateMonotone(part: string, whole: string, l: Limits)
    requires DenseRunes(part) <= DenseRunes(whole) && |part| - DenseRunes(part) <= |whole| - DenseRunes(whole)
    requires l.cjkRatio >= 1 && l.asciiRatio >= 1
    ensures EstimateTokens(part, l.cjkRatio, l.asciiRatio) <= EstimateTokens(whole, l.cjkRatio, l.asciiRatio)
  {
    hide TokensOf, DenseRunes;
    TokensMonotone(DenseRunes(part), |part| - DenseRunes(part), DenseRunes(whole), |whole| - DenseRunes(whole),
                   AtLeastOne(l.cjkRatio), AtLeastOne(l.asciiRatio));
  }

  lemma {:induction false} TokensMonotone(dense: nat, other: nat, dense': nat, other': nat, cjkRatio: int, asciiRatio: int)
    requires dense <= dense' && other <= other' && cjkRatio >= 1 && asciiRatio >= 1
    ensures TokensOf(dense, other, cjkRatio, asciiRatio) <= TokensOf(dense', other', cjkRatio, asciiRatio)
  {
    DivMonotone(dense, dense', cjkRatio);
    DivMonotone(other, other', asciiRatio);
  }

  /** Fitting is inherited by every nonempty contiguous part of a chunk. */
  lemma {:induction false} PartFits(a: seq<Msg>, b: seq<Msg>, c: seq<Msg>, l: Limits)
    requires Fits(a + b + c, l) && b != [] && l.budget >= 1 && l.cjkRatio >= 1 && l.asciiRatio >= 1
    ensures Fits(b, l)
  {
    PartRunes(a, b, c);
    EstimateMonotone(Rendered(b), Rendered(a + b + c), l);
  }

  /** A chunk that would run past the first greedy chunk contradicts its fullness. */
  lemma {:induction false} FirstChunkStaysAhead(g0: seq<Msg>, g1: seq<Msg>, rest: seq<Msg>, p0: seq<Msg>, more: seq<Msg>, lead: seq<Msg>, l: Limits)
    requires l.budget >= 1 && l.cjkRatio >= 1 && l.asciiRatio >= 1
    requires Full(g0, g1, l) && Fits(p0, l)
    requires p0 + more == lead + (g0 + (g1 + rest))
    ensures |p0| <= |lead| + |g0|
  {
    hide Fits;
    var whole := p0 + more;
    if |p0| > |lead| + |g0| {
      var n := |lead| + |g0| + 1;
      assert whole[..n] == lead + (g0 + [g1[0]]);
      assert p0 == whole[..|p0|] == whole[..n] + p0[n..];
      PartFits(lead, g0 + [g1[0]], p0[n..], l);
    }
  }

  /** Greedy packing of a suffix needs no more chunks than any admissible partition of a
      longer one: it stays ahead of every competitor. */
  lemma {:induction false} GreedyStaysAhead(g: seq<seq<Msg>>, p: seq<seq<Msg>>, lead: seq<Msg>, l: Limits)
    requires l.budget >= 1 && l.cjkRatio >= 1 && l.asciiRatio >= 1
    requires AllFit(g, l) && Maximal(g, l) && AllFit(p, l)
    requires Flatten(p) == lead + Flatten(g)
    ensures |g| <= |p|
  {
    if g != [] {
      assert Fits(g[0], l) && |Flatten(g)| >= 1;
      if |g| >= 2 {
        var g', p' := g[1..], p[1..];
        assert Flatten(g) == g[0] + (g[1] + Flatten(g'[1..]));
        FirstChunkStaysAhead(g[0], g[1], Flatten(g'[1..]), p[0], Flatten(p'), lead, l);
        var lead' := (lead + g[0])[|p[0]|..];
        assert Flatten(p') == Flatten(p)[|p[0]|..];
        assert Flatten(p) == lead + g[0] + Flatten(g');
        assert Flatten(p') == lead' + Flatten(g');
        GreedyStaysAhead(g', p', lead', l);
      }
    }
  }

  /** The packing of the source: greedy, complete, in order. */
  ghost predicate GreedyPacking(msgs: seq<Msg>, chunks: seq<seq<Msg>>, l: Limits) {
    Flatten(chunks) == msgs && AllFit(chunks, l) && Maximal(chunks, l)
  }

  /** No contiguous partition within the limits has fewer chunks. */
  lemma {:induction false} GreedyIsOptimal(msgs: seq<Msg>, chunks: seq<seq<Msg>>, other: seq<seq<Msg>>, l: Limits)
    requires l.budget >= 1 && l.cjkRatio >= 1 && l.asciiRatio >= 1
    requires GreedyPacking(msgs, chunks, l)
    requires Flatten(other) == msgs && AllFit(other, l)
    ensures |chunks| <= |other|
  {
    assert [] + msgs == msgs;
    GreedyStaysAhead(chunks, other, [], l);
  }

  lemma {:induction false} NoFewerChunks(msgs: seq<Msg>, chunks: seq<seq<Msg>>, l: Limits)
    requires l.budget >= 1 && l.cjkRatio >= 1 && l.asciiRatio >= 1
    requires GreedyPacking(msgs, chunks, l)
    ensures forall other :: Flatten(other) == msgs && AllFit(other, l) ==> |chunks| <= |other|
  {
    forall other | Flatten(other) == msgs && AllFit(other, l) ensures |chunks| <= |other| {
      GreedyIsOptimal(msgs, chunks, other, l);
    }
  }

  /** Growing the budget or the cap never costs a chunk. */
  lemma {:induction false} ChunkCountMonotone(msgs: seq<Msg>, small: seq<seq<Msg>>, large: seq<seq<Msg>>, l: Limits, l': Limits)
    requires l.budget >= 1 && l.cjkRatio >= 1 && l.asciiRatio >= 1
    requires l.budget <= l'.budget && l.msgCap <= l'.msgCap && l.cjkRatio == l'.cjkRatio && l.asciiRatio == l'.asciiRatio
    requires GreedyPacking(msgs, small, l) && GreedyPacking(msgs, large, l')
    ensures |large| <= |small|
  {
    forall i | 0 <= i < |small| ensures Fits(small[i], l') { assert Fits(small[i], l); }
    GreedyIsOptimal(msgs, large, small, l');
  }

  /** Appending a message to the open chunk keeps every earlier boundary justified. */
  lemma {:induction false} MaximalStep(chunks: seq<seq<Msg>>, cur: seq<Msg>, m: Msg, l: Limits)
    requires if cur == [] then chunks != [] ==> Maximal(chunks, l) && Full(chunks[|chunks| - 1], [m], l)
             else Maximal(chunks + [cur], l)
    ensures Maximal(chunks + [cur + [m]], l)
  {
    var after := chunks + [cur + [m]];
    forall i, j | 0 <= i < j < |after| && j == i + 1 ensures Full(after[i], after[j], l) {
      if cur != [] {
        var before := chunks + [cur];
        assert Full(before[i], before[j], l);
      } else if j < |chunks| {
        assert Full(chunks[i], chunks[j], l);
      }
    }
  }

  /** The budget test of the packing loop, on running totals. */
  predicate OverBudget(cjk: nat, other: nat, l: Limits)
    requires l.cjkRatio >= 1 && l.asciiRatio >= 1
  {
    cjk / l.cjkRatio + other / l.asciiRatio > l.budget
  }

  /** The running rune totals of a chunk decide exactly whether it fits. */
  lemma {:induction false} BudgetCheckIsExact(chunk: seq<Msg>, cjk: nat, other: nat, l: Limits)
    requires |chunk| >= 2 && Billed(chunk, cjk, other)
    requires l.budget >= 1 && l.cjkRatio >= 1 && l.asciiRatio >= 1
    ensures Fits(chunk, l) <==> |chunk| <= l.msgCap && !OverBudget(cjk, other, l)
  {
    assert EstimateTokens(Rendered(chunk), l.cjkRatio, l.asciiRatio) == TokensOf(cjk, other, l.cjkRatio, l.asciiRatio);
  }

  lemma {:induction false} RenderedOne(m: Msg)
    ensures Rendered([m]) == RenderLine(m)
  {
    assert Lines([m]) == [] + [RenderLine(m)];
    FlattenAppend([], RenderLine(m));
  }

  /** The running totals of the open chunk. */
  predicate Billed(cur: seq<Msg>, cjk: nat, other: nat) {
    cjk == DenseRunes(Rendered(cur)) && other == |Rendered(cur)| - DenseRunes(Rendered(cur))
  }

  lemma {:induction false} FitsCap(chunk: seq<Msg>, l: Limits)
    requires Fits(chunk, l)
    ensures 1 <= |chunk| <= l.msgCap
  {
  }

  /** One message against the open chunk: its rune counts, and whether the chunk must be
      closed before it. */
  method BillLine(cur: seq<Msg>, curCJK: nat, curOther: nat, m: Msg, l: Limits)
    returns (lCJK: nat, lOther: nat, close: bool)
    requires cur == [] || Fits(cur, l)
    requires l.budget >= 1 && l.msgCap >= 1 && l.cjkRatio >= 1 && l.asciiRatio >= 1
    requires Billed(cur, curCJK, curOther)
    ensures close <==> cur != [] && !Fits(cur + [m], l)
    ensures Billed(cur + [m], curCJK + lCJK, curOther + lOther)
    ensures Billed([] + [m], 0 + lCJK, 0 + lOther)
  {
    hide DenseRunes, Rendered, RenderLine, TokensOf, OverBudget, Fits, Billed;
    lCJK, lOther := ClassifyRunes(RenderLine(m));
    BilledStep(cur, m, curCJK, curOther, lCJK, lOther);
    if |cur| > 0 {
      BudgetCheckIsExact(cur + [m], curCJK + lCJK, curOther + lOther, l);
    }
    if cur != [] { FitsCap(cur, l); }
    var atCap := |cur| >= l.msgCap;
    var overBudget := |cur| > 0 && OverBudget(curCJK + lCJK, curOther + lOther, l);
    close := |cur| > 0 && (overBudget || atCap);
  }

  lemma {:induction false} BilledStep(cur: seq<Msg>, m: Msg, cjk: nat, other: nat, lCJK: nat, lOther: nat)
    requires Billed(cur, cjk, other)
    requires lCJK == DenseRunes(RenderLine(m)) && lOther == |RenderLine(m)| - DenseRunes(RenderLine(m))
    ensures Billed(cur + [m], cjk + lCJK, other + lOther) && Billed([] + [m], lCJK, lOther)
  {
    MeasureStep(cur, m);
    MeasureStep([], m);
    assert Rendered([]) == "";
  }

  /** What one step of the packing loop preserves. */
  ghost predicate Packed(done: seq<Msg>, chunks: seq<seq<Msg>>, cur: seq<Msg>, l: Limits) {
    && Flatten(chunks) + cur == done
    && AllFit(chunks, l)
    && (if done == [] then chunks == [] && cur == [] else Fits(cur, l) && Maximal(chunks + [cur], l))
  }

  lemma {:induction false} PackedStart(l: Limits)
    ensures Packed([], [], [], l) && Billed([], 0, 0)
  {
    assert Rendered([]) == "";
  }

  lemma {:induction false} PackedOpen(done: seq<Msg>, chunks: seq<seq<Msg>>, cur: seq<Msg>, l: Limits)
    requires Packed(done, chunks, cur, l)
    ensures cur == [] || Fits(cur, l)
  {
  }

  lemma {:induction false} PackedStep(done: seq<Msg>, chunks: seq<seq<Msg>>, cur: seq<Msg>, m: Msg, l: Limits)
    requires Packed(done, chunks, cur, l) && l.msgCap >= 1
    ensures cur == [] || Fits(cur + [m], l) ==> Packed(done + [m], chunks, cur + [m], l)
    ensures cur != [] && !Fits(cur + [m], l) ==> Packed(done + [m], chunks + [cur], [] + [m], l)
  {
    if cur == [] || Fits(cur + [m], l) {
      assert Flatten(chunks) + (cur + [m]) == done + [m];
      MaximalStep(chunks, cur, m, l);
    } else {
      FlattenAppend(chunks, cur);
      MaximalStep(chunks + [cur], [], m, l);
      assert [] + [m] == [m];
    }
  }

  lemma {:induction false} PackedEnd(msgs: seq<Msg>, chunks: seq<seq<Msg>>, cur: seq<Msg>, l: Limits)
    requires Packed(msgs, chunks, cur, l)
    ensures GreedyPacking(msgs, if cur != [] then chunks + [cur] else chunks, l)
  {
    FlattenAppend(chunks, cur);
  }

  lemma {:induction false} MeasureStep(cur: seq<Msg>, m: Msg)
    ensures Rendered(cur + [m]) == Rendered(cur) + RenderLine(m)
    ensures DenseRunes(Rendered(cur + [m])) == DenseRunes(Rendered(cur)) + DenseRunes(RenderLine(m))
  {
    RenderedOne(m);
    RenderedAppend(cur, [m]);
    DenseAppend(Rendered(cur), RenderLine(m));
  }

  method SplitByTokenBudget(msgs: seq<Msg>, budget: int, maxMsgs: int, cjkRatio: int, asciiRatio: int)
    returns (chunks: seq<seq<Msg>>)
    ensures GreedyPacking(msgs, chunks, Effective(budget, maxMsgs, cjkRatio, asciiRatio))
    ensures forall other :: Flatten(other) == msgs && AllFit(other, Effective(budget, maxMsgs, cjkRatio, asciiRatio))
                            ==> |chunks| <= |other|
  {
    hide Packed, Billed, Fits, AllFit, Flatten, GreedyPacking;
    var l := Effective(budget, maxMsgs, cjkRatio, asciiRatio);
    chunks := [];
    var cur: seq<Msg> := [];
    var curCJK, curOther := 0, 0;
    PackedStart(l);
    for i := 0 to |msgs|
      invariant Packed(msgs[..i], chunks, cur, l)
      invariant Billed(cur, curCJK, curOther)
    {
      var m := msgs[i];
      PackedOpen(msgs[..i], chunks, cur, l);
      var lCJK, lOther, close := BillLine(cur, curCJK, curOther, m, l);
      PackedStep(msgs[..i], chunks, cur, m, l);
      if close {
        chunks := chunks + [cur];
        cur, curCJK, curOther := [], 0, 0;
      }
      TakeNext(msgs, i);
      cur, curCJK, curOther := cur + [m], curCJK + lCJK, curOther + lOther;
    }
    assert msgs[..|msgs|] == msgs;
    PackedEnd(msgs, chunks, cur, l);
    if |cur| > 0 {
      chunks := chunks + [cur];
    }
    NoFewerChunks(msgs, chunks, l);
  }
}
