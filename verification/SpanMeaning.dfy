/** Which characters are inline code (the second loop of protectedSpans in
    citationtext/citation.go), read off the backticks. */
module SpanMeaning {
  import opened GoText
  import opened Markdown

  /** The backticks from j on, n of them. */
  predicate TickRun(s: string, j: nat, n: nat) {
    && n >= 1 && j + n <= |s| && (forall i :: j <= i < j + n ==> s[i] == '`') && (j + n < |s| ==> s[j + n] != '`')
  }

  lemma {:induction false} TicksAre(s: string, j: nat, n: nat)
    requires TickRun(s, j, n)
    ensures Ticks(s, j) == n
    decreases n
  {
    if n > 1 {
      TicksAre(s, j + 1, n - 1);
    }
  }

  lemma {:induction false} TicksRun(s: string, j: nat)
    requires j < |s| && s[j] == '`'
    ensures TickRun(s, j, Ticks(s, j))
    decreases |s| - j
  {
    if j + 1 < |s| && s[j + 1] == '`' {
      TicksRun(s, j + 1);
    }
  }

  /** A whole unmasked run of n backticks at j, no earlier than `from`. */
  predicate Closer(s: string, base: seq<bool>, from: nat, n: nat, j: nat)
    requires |base| == |s|
  {
    from <= j && TickRun(s, j, n) && !base[j] && (j > 0 ==> s[j - 1] != '`')
  }

  ghost predicate FirstCloser(s: string, base: seq<bool>, from: nat, n: nat, j: nat)
    requires |base| == |s|
  {
    Closer(s, base, from, n, j) && forall h: nat :: h < j ==> !Closer(s, base, from, n, h)
  }

  /** The next whole run of as many backticks as at i ends at k. */
  ghost predicate ClosedBy(s: string, base: seq<bool>, i: nat, n: nat, k: nat)
    requires |base| == |s|
  {
    TickRun(s, i, n) && k >= n && FirstCloser(s, base, i + n, n, k - n)
  }

  /** Code from i to k: an unmasked, unescaped backtick outside any earlier span, closed by
      the next whole run of the same length. */
  ghost predicate SpanAt(s: string, base: seq<bool>, i: nat, k: nat)
    requires |base| == |s|
    decreases i
  {
    && i < |s| && s[i] == '`' && !base[i] && !Escaped(s, i)
    && (exists n: nat :: ClosedBy(s, base, i, n, k))
    && forall h: nat, m: nat :: h < i && SpanAt(s, base, h, m) ==> m <= i
  }

  ghost predicate InSpan(s: string, base: seq<bool>, q: nat)
    requires |base| == |s|
  {
    exists i: nat, k: nat :: SpanAt(s, base, i, k) && i <= q < k
  }

  /** Backticks in a row are masked together, as they are on one line. */
  predicate WholeRuns(s: string, base: seq<bool>)
    requires |base| == |s|
  {
    forall i :: 0 <= i < |s| - 1 && s[i] == '`' && s[i + 1] == '`' ==> base[i] == base[i + 1]
  }

  /** The search stands at no unmasked backtick inside a run. */
  predicate AtEdge(s: string, base: seq<bool>, j: nat)
    requires |base| == |s| && j <= |s|
  {
    j < |s| && s[j] == '`' && !base[j] && j > 0 ==> s[j - 1] != '`'
  }

  /** A run of another length holds no closer. */
  lemma {:induction false} NoCloserInRun(s: string, base: seq<bool>, from: nat, n: nat, j: nat)
    requires |base| == |s| && j < |s| && n >= 1 && TickRun(s, j, Ticks(s, j)) && Ticks(s, j) != n
    ensures forall h: nat :: j <= h < j + Ticks(s, j) ==> !Closer(s, base, from, n, h)
  {
    forall h: nat | j <= h < j + Ticks(s, j) ensures !Closer(s, base, from, n, h) {
      if h == j && TickRun(s, j, n) { TicksAre(s, j, n); }
    }
  }

  lemma {:induction false} CloserFrom(s: string, base: seq<bool>, from: nat, n: nat, j: nat)
    requires |base| == |s| && WholeRuns(s, base) && from <= j <= |s| && n >= 1 && AtEdge(s, base, j)
    requires forall h: nat :: h < j ==> !Closer(s, base, from, n, h)
    ensures match CloseTicks(s, base, j, n)
            case None => forall h: nat :: !Closer(s, base, from, n, h)
            case Some(k) => k >= n && FirstCloser(s, base, from, n, k - n)
    decreases |s| - j
  {
    if j == |s| {
    } else if base[j] || s[j] != '`' {
      assert !Closer(s, base, from, n, j);
      CloserFrom(s, base, from, n, j + 1);
    } else {
      TicksRun(s, j);
      var k := j + Ticks(s, j);
      if k - j == n {
        assert Closer(s, base, from, n, j);
      } else {
        NoCloserInRun(s, base, from, n, j);
        CloserFrom(s, base, from, n, k);
      }
    }
  }

  /** No span reaches across i. */
  ghost predicate Cut(s: string, base: seq<bool>, i: nat)
    requires |base| == |s|
  {
    forall h: nat, m: nat :: h < i && SpanAt(s, base, h, m) ==> m <= i
  }

  lemma {:induction false} OneRun(s: string, i: nat, n: nat, n': nat)
    requires TickRun(s, i, n) && TickRun(s, i, n')
    ensures n == n'
  {
    TicksAre(s, i, n);
    TicksAre(s, i, n');
  }

  lemma {:induction false} OneSpan(s: string, base: seq<bool>, i: nat, k: nat, k': nat)
    requires |base| == |s| && SpanAt(s, base, i, k) && SpanAt(s, base, i, k')
    ensures k == k'
  {
    hide TickRun, Closer;
    var n: nat :| ClosedBy(s, base, i, n, k);
    var n': nat :| ClosedBy(s, base, i, n', k');
    OneRun(s, i, n, n');
    assert FirstCloser(s, base, i + n, n, k - n) && FirstCloser(s, base, i + n, n, k' - n);
  }

  /** What the scan does at a position no span reaches across. */
  lemma {:induction false} SpanHere(s: string, base: seq<bool>, i: nat)
    requires |base| == |s| && WholeRuns(s, base) && i < |s| && Cut(s, base, i)
    ensures var flags := SpanFlags(s, base, i);
      if SpanStarts(s, base, i) && CloseTicks(s, base, i + Ticks(s, i), Ticks(s, i)).Some?
      then SpanAt(s, base, i, i + |flags|) && flags == Flags(|flags|, true)
      else flags == [base[i]] && forall k: nat :: !SpanAt(s, base, i, k)
  {
    hide Closer, TickRun, SpanAt;
    if SpanStarts(s, base, i) {
      var n := Ticks(s, i);
      TicksRun(s, i);
      NoCloserBefore(s, base, i + n, n);
      EdgeBehind(s, base, i, n);
      CloserFrom(s, base, i + n, n, i + n);
      var c := CloseTicks(s, base, i + n, n);
      if c.Some? {
        SpanOf(s, base, i, n, c.value - n);
      } else {
        NoSpan(s, base, i, n, i + n);
      }
    } else {
      NotStarting(s, base, i);
    }
  }

  lemma {:induction false} NotStarting(s: string, base: seq<bool>, i: nat)
    requires |base| == |s| && i < |s| && !SpanStarts(s, base, i)
    ensures forall k: nat :: !SpanAt(s, base, i, k)
  {
  }

  lemma {:induction false} NoCloserBefore(s: string, base: seq<bool>, from: nat, n: nat)
    requires |base| == |s|
    ensures forall h: nat :: h < from ==> !Closer(s, base, from, n, h)
  {
  }

  lemma {:induction false} EdgeBehind(s: string, base: seq<bool>, i: nat, n: nat)
    requires |base| == |s| && TickRun(s, i, n)
    ensures i + n <= |s| && n >= 1 && AtEdge(s, base, i + n)
  {
  }

  lemma {:induction false} SpanOf(s: string, base: seq<bool>, i: nat, n: nat, j: nat)
    requires |base| == |s| && i < |s| && SpanStarts(s, base, i) && TickRun(s, i, n) && FirstCloser(s, base, i + n, n, j) && Cut(s, base, i)
    ensures SpanAt(s, base, i, j + n)
  {
    hide Closer, TickRun, FirstCloser;
    assert ClosedBy(s, base, i, n, j + n);
  }

  lemma {:induction false} NoSpan(s: string, base: seq<bool>, i: nat, n: nat, from: nat)
    requires |base| == |s| && TickRun(s, i, n) && from == i + n && forall h: nat :: !Closer(s, base, from, n, h)
    ensures forall k: nat :: !SpanAt(s, base, i, k)
  {
    hide Closer, TickRun;
    forall n': nat, k: nat ensures !ClosedBy(s, base, i, n', k) {
      if TickRun(s, i, n') { OneRun(s, i, n, n'); }
    }
  }

  /** Behind a span, or one character further, no span reaches across. */
  lemma {:induction false} CutNext(s: string, base: seq<bool>, i: nat, k: nat)
    requires |base| == |s| && Cut(s, base, i) && i < k
    requires SpanAt(s, base, i, k) || (k == i + 1 && forall m: nat :: !SpanAt(s, base, i, m))
    ensures Cut(s, base, k)
    ensures forall h: nat, m: nat :: i < h < k ==> !SpanAt(s, base, h, m)
  {
    hide SpanAt;
    forall h: nat, m: nat | i < h < k ensures !SpanAt(s, base, h, m) {
      OutsideEarlier(s, base, i, k, h, m);
    }
    forall h: nat, m: nat | h < k && SpanAt(s, base, h, m) ensures m <= k {
      if h == i {
        AtOrBehind(s, base, i, k, m);
      } else {
        CutAt(s, base, i, h, m);
      }
    }
  }

  lemma {:induction false} AtOrBehind(s: string, base: seq<bool>, i: nat, k: nat, m: nat)
    requires |base| == |s| && SpanAt(s, base, i, m) && (SpanAt(s, base, i, k) || forall m: nat :: !SpanAt(s, base, i, m))
    ensures m == k
  {
    hide SpanAt;
    if SpanAt(s, base, i, k) { OneSpan(s, base, i, m, k); }
  }

  lemma {:induction false} CutAt(s: string, base: seq<bool>, i: nat, h: nat, m: nat)
    requires |base| == |s| && Cut(s, base, i) && h < i && SpanAt(s, base, h, m)
    ensures m <= i
  {
    hide SpanAt;
  }

  lemma {:induction false} OutsideEarlier(s: string, base: seq<bool>, i: nat, k: nat, h: nat, m: nat)
    requires |base| == |s| && i < h < k && (SpanAt(s, base, i, k) || k == i + 1)
    ensures !SpanAt(s, base, h, m)
  {
  }

  lemma {:induction false} SpanMaskFrom(s: string, base: seq<bool>, i: nat, q: nat)
    requires |base| == |s| && WholeRuns(s, base) && i <= q < |s| && Cut(s, base, i)
    ensures SpanMask(s, base, i)[q - i] <==> base[q] || InSpan(s, base, q)
    decreases |s| - i
  {
    hide SpanAt, WholeRuns, Ticks, CloseTicks, SpanFlags;
    SpanHere(s, base, i);
    var flags := SpanFlags(s, base, i);
    var k := i + |flags|;
    CutNext(s, base, i, k);
    if q >= k {
      SpanMaskFrom(s, base, k, q);
    } else {
      if !(SpanStarts(s, base, i) && CloseTicks(s, base, i + Ticks(s, i), Ticks(s, i)).Some?) {
        NoSpanAcross(s, base, i);
      }
    }
  }

  lemma {:induction false} NoSpanAcross(s: string, base: seq<bool>, i: nat)
    requires |base| == |s| && i < |s| && Cut(s, base, i) && forall k: nat :: !SpanAt(s, base, i, k)
    ensures !InSpan(s, base, i)
  {
    hide SpanAt;
    forall h: nat, k: nat | h <= i < k ensures !SpanAt(s, base, h, k) {}
  }

  /** The backtick scan protects exactly what was protected and the spans. */
  lemma {:induction false} SpanMaskMeaning(s: string, base: seq<bool>, q: nat)
    requires |base| == |s| && WholeRuns(s, base) && q < |s|
    ensures SpanMask(s, base, 0)[q] <==> base[q] || InSpan(s, base, q)
  {
    SpanMaskFrom(s, base, 0, q);
  }
}
