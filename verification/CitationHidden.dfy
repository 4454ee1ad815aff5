/** What more protection does to the markers of a text: some are no longer read, and that
    never makes another marker invalid, adjacent or expandable. */
module CitationHidden {
  import opened GoText
  import opened Citation
  import opened CitationCluster
  import opened CitationStrict
  import opened CitationRewrite

  // ----- One position of the two scans -----

  lemma {:induction false} BodyRunSame(t: Text, t': Text)
    requires Hides(t, t')
    ensures BodyRun(t) == BodyRun(t')
  {
    if t != [] {
      BodyRunSame(t[1..], t'[1..]);
    }
  }

  lemma {:induction false} HidesSlice(t: Text, t': Text, lo: nat, hi: nat)
    requires Hides(t, t') && lo <= hi <= |t|
    ensures Hides(t[lo..hi], t'[lo..hi]) && Chars(t[lo..hi]) == Chars(t'[lo..hi])
  {
  }

  lemma {:induction false} HidesTail(t: Text, t': Text, n: nat)
    requires Hides(t, t') && n <= |t|
    ensures Hides(t[n..], t'[n..])
  {
  }

  lemma {:induction false} CandidateSame(t: Text, t': Text)
    requires Hides(t, t')
    ensures Candidate(t) == Candidate(t')
  {
    if t != [] {
      HidesTail(t, t', 1);
      BodyRunSame(t[1..], t'[1..]);
      HidesSlice(t[1..], t'[1..], 0, BodyRun(t[1..]));
      assert t[1..][..BodyRun(t[1..])] == t[1..][0..BodyRun(t[1..])] && t'[1..][..BodyRun(t[1..])] == t'[1..][0..BodyRun(t[1..])];
    }
  }

  lemma {:induction false} BodySame(t: Text, t': Text, n: nat)
    requires Hides(t, t') && 2 <= n <= |t|
    ensures Body(t[..n]) == Body(t'[..n])
  {
    HidesSlice(t, t', 1, n - 1);
    assert t[..n][1..n - 1] == t[1..n - 1] && t'[..n][1..n - 1] == t'[1..n - 1];
  }

  /** A marker is read at the same places, unless its bracket is protected now. */
  lemma {:induction false} MarkHidden(ctx: Context, t: Text, t': Text)
    requires Hides(t, t') && t != []
    ensures MarkAt(ctx, t') == if t'[0].protected then None else MarkAt(ctx, t)
  {
    hide Candidate, DateShape, Trim, Body;
    CandidateSame(t, t');
    var c := Candidate(t);
    if c.Some? {
      BodySame(t, t', c.value);
      assert c.value < |t| ==> t[c.value].c == t'[c.value].c;
    }
  }

  function AsPlain(x: Text): (a: seq<Atom>)
    ensures |a| == |x| && forall i :: 0 <= i < |x| ==> a[i] == Plain(x[i])
  {
    seq(|x|, i requires 0 <= i < |x| => Plain(x[i]))
  }

  /** A text without readable brackets that ends in a closing one. */
  predicate Dead(x: Text) {
    x != [] && x[|x| - 1].c == ']' && forall i :: 0 <= i < |x| ==> x[i].c == '[' ==> x[i].protected
  }

  lemma {:induction false} DeadHead(ctx: Context, t: Text)
    requires t != [] && (t[0].c == '[' ==> t[0].protected)
    ensures Scan(ctx, t) == [Plain(t[0])] + Scan(After(ctx, t[0].c), t[1..])
  {
    assert MarkAt(ctx, t).None?;
  }

  lemma {:induction false} DeadScan(ctx: Context, x: Text, v: Text)
    requires Dead(x)
    ensures Scan(ctx, x + v) == AsPlain(x) + Scan(NEUTRAL, v)
    decreases |x|
  {
    hide Scan;
    var t, rest := x + v, x[1..];
    DeadHead(ctx, t);
    assert t[1..] == rest + v && t[0] == x[0];
    if rest == [] {
      assert rest + v == v && AsPlain(x) == [Plain(x[0])];
    } else {
      DeadScan(After(ctx, x[0].c), rest, v);
      assert AsPlain(x) == [Plain(x[0])] + AsPlain(rest);
      ConcatAssoc([Plain(x[0])], AsPlain(rest), Scan(NEUTRAL, v));
    }
  }

  /** The scan of a text, position by position, and of the same text with more protection. */
  lemma {:induction false} HiddenStep(ctx: Context, t: Text, t': Text)
    requires Hides(t, t') && t != []
    ensures MarkAt(ctx, t).None? ==>
              && Scan(ctx, t) == [Plain(t[0])] + Scan(After(ctx, t[0].c), t[1..])
              && Scan(ctx, t') == [Plain(t'[0])] + Scan(After(ctx, t[0].c), t'[1..])
              && t'[0].c == t[0].c && Hides(t[1..], t'[1..])
    ensures MarkAt(ctx, t).Some? ==>
              var n := MarkAt(ctx, t).value;
              && n <= |t| && Scan(ctx, t) == [MarkOf(t[..n])] + Scan(NEUTRAL, t[n..]) && Hides(t[n..], t'[n..])
              && (if t'[0].protected then Dead(t'[..n]) && t'[..n][0].c == '[' && Scan(ctx, t') == AsPlain(t'[..n]) + Scan(NEUTRAL, t'[n..])
                  else Scan(ctx, t') == [MarkOf(t'[..n])] + Scan(NEUTRAL, t'[n..])
                       && MarkOf(t'[..n]).indices == MarkOf(t[..n]).indices && MarkOf(t'[..n]).compound == MarkOf(t[..n]).compound)
  {
    hide MarkAt, Hides, Body, GroupIndices, CompoundBody;
    MarkHidden(ctx, t, t');
    var m := MarkAt(ctx, t);
    HidesHead(t, t');
    if m.None? {
      HidesTail(t, t', 1);
    } else {
      var n := m.value;
      HidesTail(t, t', n);
      BodySame(t, t', n);
      if t'[0].protected {
        DeadGroup(ctx, t, t', n);
        CutAt(t', n);
        DeadScan(ctx, t'[..n], t'[n..]);
      }
    }
  }

  lemma {:induction false} HidesHead(t: Text, t': Text)
    requires Hides(t, t') && t != []
    ensures |t| == |t'| && t'[0].c == t[0].c
  {
  }

  lemma {:induction false} DeadGroup(ctx: Context, t: Text, t': Text, n: nat)
    requires Hides(t, t') && MarkAt(ctx, t) == Some(n) && t'[0].protected
    ensures n <= |t| && Dead(t'[..n]) && t'[..n][0].c == '['
  {
    CutAt(t, n);
    GroupRun(ctx, t[..n], t[n..]);
    forall i | 0 <= i < n ensures t'[..n][i].c == '[' ==> t'[..n][i].protected {
      assert t'[..n][i].c == t[..n][i].c;
    }
    assert t'[..n][n - 1].c == t[..n][n - 1].c;
  }

  // ----- A marker that is no longer read -----

  lemma {:induction false} DeadAdjacent(x: Text, rest: seq<Atom>, near: bool, valid: Evidence)
    requires x != [] && x[|x| - 1].c == ']'
    ensures Guarded(AsPlain(x) + rest, near, valid) <==> Guarded(rest, false, valid)
    ensures Idle(AsPlain(x) + rest, near, valid) <==> Idle(rest, false, valid)
    ensures NoCompoundInCluster(AsPlain(x) + rest, near) <==> NoCompoundInCluster(rest, false)
    ensures Cited(AsPlain(x) + rest, near) <==> Cited(rest, false)
    decreases |x|
  {
    var a := AsPlain(x) + rest;
    assert a[0] == Plain(x[0]);
    if |x| == 1 {
      assert a[1..] == rest;
      assert !NearAfter(near, a[0]);
    } else {
      assert x[1..][|x| - 2] == x[|x| - 1];
      assert a[1..] == AsPlain(x[1..]) + rest;
      DeadAdjacent(x[1..], rest, NearAfter(near, a[0]), valid);
    }
  }

  /** No group would be expanded. */
  predicate Idle(a: seq<Atom>, near: bool, valid: Evidence) {
    a != [] ==>
      && !(a[0].Mark? && a[0].compound && a[0].indices != [] && AllBacked(valid, a[0].indices) && (near || MarkAhead(a[1..])))
      && Idle(a[1..], NearAfter(near, a[0]), valid)
  }

  lemma {:induction false} IdleIsExpanded(a: seq<Atom>, near: bool, valid: Evidence)
    requires Idle(a, near, valid)
    ensures Expanded(a, near, valid) == a
  {
    if a != [] {
      IdleIsExpanded(a[1..], NearAfter(near, a[0]), valid);
      ExpandedUnfold(a, near, valid);
    }
  }

  lemma {:induction false} SinglesIdle(ns: seq<nat>, rest: seq<Atom>, near: bool, valid: Evidence)
    requires ns != []
    ensures Idle(Singles(ns) + rest, near, valid) <==> Idle(rest, true, valid)
  {
    var s := Singles(ns) + rest;
    assert s[0] == Single(ns[0]);
    if |ns| == 1 {
      assert s[1..] == rest;
    } else {
      assert s[1..] == Singles(ns[1..]) + rest;
      SinglesIdle(ns[1..], rest, true, valid);
    }
  }

  lemma {:induction false} ExpandedIsIdle(a: seq<Atom>, near: bool, valid: Evidence)
    ensures Idle(Expanded(a, near, valid), near, valid)
  {
    if a != [] {
      var near' := NearAfter(near, a[0]);
      var rest := Expanded(a[1..], near', valid);
      ExpandedIsIdle(a[1..], near', valid);
      AheadOfExpansion(a[1..], near', valid);
      ExpandedUnfold(a, near, valid);
      if Cluster(a, near, valid)[0] {
        SinglesIdle(Dedup(a[0].indices), rest, near, valid);
      } else {
        assert ([a[0]] + rest)[1..] == rest;
      }
    }
  }

  /** Some marker of a kind whose bracket is left unprotected in a text of the same shape. */
  predicate SomeLeft(a: seq<Atom>, t: Text, counts: Atom -> bool) {
    a != [] && (
      || (a[0].Mark? && counts(a[0]) && t != [] && !t[0].protected)
      || (|RenderAtom(a[0])| <= |t| && SomeLeft(a[1..], t[|RenderAtom(a[0])|..], counts)))
  }

  /** The place of an atom in the text it renders to. */
  function Place(a: seq<Atom>, j: nat): nat
    requires j <= |a|
  {
    |Render(a[..j])|
  }

  ghost predicate LeftAt(a: seq<Atom>, t: Text, counts: Atom -> bool, j: nat) {
    j < |a| && a[j].Mark? && counts(a[j]) && Place(a, j) < |t| && !t[Place(a, j)].protected
  }

  lemma {:induction false} PlaceTail(a: seq<Atom>, j: nat)
    requires 0 < j <= |a|
    ensures Place(a, j) == |RenderAtom(a[0])| + Place(a[1..], j - 1)
  {
    assert a[..j] == [a[0]] + a[1..][..j - 1];
    RenderCons(a[0], a[1..][..j - 1]);
  }

  lemma {:induction false} SomeLeftMeaning(a: seq<Atom>, t: Text, counts: Atom -> bool)
    ensures SomeLeft(a, t, counts) <==> exists j: nat :: LeftAt(a, t, counts, j)
    decreases |a|
  {
    if a != [] {
      var n := |RenderAtom(a[0])|;
      assert a[..0] == [] && Place(a, 0) == 0;
      if n <= |t| {
        SomeLeftMeaning(a[1..], t[n..], counts);
      }
      if SomeLeft(a, t, counts) {
        if a[0].Mark? && counts(a[0]) && t != [] && !t[0].protected {
          assert LeftAt(a, t, counts, 0);
        } else {
          var j: nat :| LeftAt(a[1..], t[n..], counts, j);
          PlaceTail(a, j + 1);
          assert LeftAt(a, t, counts, j + 1);
        }
      }
      if j: nat :| LeftAt(a, t, counts, j) {
        if j > 0 {
          PlaceTail(a, j);
          assert LeftAt(a[1..], t[n..], counts, j - 1);
        }
      }
    }
  }

  const SINGLE := (m: Atom) => m.Mark? && !m.compound

  lemma {:induction false} HiddenAhead(ctx: Context, t: Text, t': Text)
    requires Hides(t, t')
    ensures MarkAhead(Scan(ctx, t')) ==> MarkAhead(Scan(ctx, t))
    decreases |t|
  {
    hide Hides, MarkAt, Scan;
    if t == [] {
      assert t' == [] by { HidesNothing(t'); }
      NothingScanned(ctx);
    } else {
      HidesHead(t, t');
      HiddenStep(ctx, t, t');
      var m := MarkAt(ctx, t);
      if m.None? {
        HiddenAhead(After(ctx, t[0].c), t[1..], t'[1..]);
      }
    }
  }

  lemma {:induction false} HidesNothing(t': Text)
    requires Hides([], t')
    ensures t' == []
  {
  }

  lemma {:induction false} NothingScanned(ctx: Context)
    ensures Scan(ctx, []) == []
  {
  }

  lemma {:induction false} Unfolded(h: Atom, rest: seq<Atom>, near: bool, valid: Evidence)
    ensures Guarded([h] + rest, near, valid)
       <==> (h.Mark? && (!h.compound || near || MarkAhead(rest)) ==> h.indices != [] && AllBacked(valid, h.indices)) && Guarded(rest, NearAfter(near, h), valid)
    ensures Idle([h] + rest, near, valid)
       <==> !(h.Mark? && h.compound && h.indices != [] && AllBacked(valid, h.indices) && (near || MarkAhead(rest))) && Idle(rest, NearAfter(near, h), valid)
    ensures NoCompoundInCluster([h] + rest, near)
       <==> (h.Mark? && h.compound ==> !near && !MarkAhead(rest)) && NoCompoundInCluster(rest, NearAfter(near, h))
    ensures Cited([h] + rest, near) <==> (h.Mark? && (!h.compound || near || MarkAhead(rest))) || Cited(rest, NearAfter(near, h))
  {
    assert ([h] + rest)[1..] == rest;
  }

  lemma {:induction false} SomeLeftUnfold(h: Atom, rest: seq<Atom>, t: Text, counts: Atom -> bool)
    requires t != [] && |RenderAtom(h)| <= |t|
    ensures SomeLeft([h] + rest, t, counts) <==> (h.Mark? && counts(h) && !t[0].protected) || SomeLeft(rest, t[|RenderAtom(h)|..], counts)
  {
    assert ([h] + rest)[1..] == rest;
  }

  /** More protection keeps the guard, leaves nothing new to expand and puts no compound
      group next to a marker; and when there was none, a citation is left exactly when some
      single marker still is. */
  lemma {:induction false} HiddenAdjacent(ctx: Context, t: Text, t': Text, near: bool, near': bool, valid: Evidence)
    requires Hides(t, t') && (near' ==> near)
    ensures var a, a' := Scan(ctx, t), Scan(ctx, t');
      && (Guarded(a, near, valid) ==> Guarded(a', near', valid))
      && (Idle(a, near, valid) ==> Idle(a', near', valid))
      && (NoCompoundInCluster(a, near) ==> NoCompoundInCluster(a', near') && (Cited(a', near') <==> SomeLeft(a, t', SINGLE)))
    decreases |t|
  {
    hide Hides, MarkAt, Scan, Guarded, Idle, NoCompoundInCluster, Cited, SomeLeft, MarkAhead, AllBacked, Dead;
    if t == [] {
      HidesNothing(t');
      NothingScanned(ctx);
      NothingSaid(near, near', valid, t');
    } else {
      HidesHead(t, t');
      HiddenStep(ctx, t, t');
      var m := MarkAt(ctx, t);
      var n := if m.Some? then m.value else 1;
      var next := if m.Some? then NEUTRAL else After(ctx, t[0].c);
      var h := if m.Some? then MarkOf(t[..n]) else Plain(t[0]);
      var rest, rest' := Scan(next, t[n..]), Scan(next, t'[n..]);
      assert t' != [] && |RenderAtom(h)| == n;
      Unfolded(h, rest, near, valid);
      SomeLeftUnfold(h, rest, t', SINGLE);
      HiddenAhead(next, t[n..], t'[n..]);
      if m.Some? && t'[0].protected {
        HiddenAdjacent(next, t[n..], t'[n..], NearAfter(near, h), false, valid);
        DeadEnds(t'[..n]);
        DeadAdjacent(t'[..n], rest', near', valid);
      } else {
        var h' := if m.Some? then MarkOf(t'[..n]) else Plain(t'[0]);
        HiddenAdjacent(next, t[n..], t'[n..], NearAfter(near, h), NearAfter(near', h'), valid);
        Unfolded(h', rest', near', valid);
      }
    }
  }

  lemma {:induction false} DeadEnds(x: Text)
    requires Dead(x)
    ensures x != [] && x[|x| - 1].c == ']'
  {
  }

  lemma {:induction false} NothingSaid(near: bool, near': bool, valid: Evidence, t: Text)
    ensures Guarded([], near', valid) && Idle([], near', valid) && NoCompoundInCluster([], near') && !Cited([], near') && !SomeLeft([], t, SINGLE)
  {
  }

  // ----- The strict boundary -----

  function InWindow(maxIndex: int): Atom -> bool {
    (m: Atom) => m.Mark? && !OutsideWindow(m, maxIndex)
  }

  /** Every compound group lies outside the evidence window. */
  predicate GroupsOutside(a: seq<Atom>, maxIndex: int) {
    forall i :: 0 <= i < |a| && a[i].Mark? && a[i].compound ==> OutsideWindow(a[i], maxIndex)
  }

  lemma {:induction false} OutsideIsExpanded(a: seq<Atom>, valid: Evidence, maxIndex: int)
    requires GroupsOutside(a, maxIndex)
    ensures StrictExpanded(a, maxIndex) == a && AllResolved(a, valid, maxIndex)
  {
    if a != [] {
      var h, rest := a[0], a[1..];
      assert [h] + rest == a;
      hide OutsideWindow, GroupsOutside, StrictExpanded, AllBacked;
      StrictlyUnfolded(h, rest, valid, maxIndex);
      OutsideIsExpanded(rest, valid, maxIndex);
      StrictUnfold(a, maxIndex);
    }
  }

  lemma {:induction false} StrictlyUnfolded(h: Atom, rest: seq<Atom>, valid: Evidence, maxIndex: int)
    ensures StrictlyBacked([h] + rest, valid, maxIndex)
       <==> (h.Mark? && !OutsideWindow(h, maxIndex) ==> h.indices != [] && AllBacked(valid, h.indices)) && StrictlyBacked(rest, valid, maxIndex)
    ensures HasEvidence([h] + rest, maxIndex) <==> (h.Mark? && !OutsideWindow(h, maxIndex)) || HasEvidence(rest, maxIndex)
    ensures GroupsOutside([h] + rest, maxIndex) <==> (h.Mark? && h.compound ==> OutsideWindow(h, maxIndex)) && GroupsOutside(rest, maxIndex)
  {
    var a := [h] + rest;
    assert a[1..] == rest && a[0] == h;
    if GroupsOutside(a, maxIndex) {
      forall i | 0 <= i < |rest| && rest[i].Mark? && rest[i].compound ensures OutsideWindow(rest[i], maxIndex) { assert a[i + 1] == rest[i]; }
    }
  }

  lemma {:induction false} DeadStrict(x: Text, rest: seq<Atom>, valid: Evidence, maxIndex: int)
    ensures StrictlyBacked(AsPlain(x) + rest, valid, maxIndex) <==> StrictlyBacked(rest, valid, maxIndex)
    ensures HasEvidence(AsPlain(x) + rest, maxIndex) <==> HasEvidence(rest, maxIndex)
    ensures GroupsOutside(AsPlain(x) + rest, maxIndex) <==> GroupsOutside(rest, maxIndex)
    decreases |x|
  {
    if x == [] {
      assert AsPlain(x) + rest == rest;
    } else {
      assert AsPlain(x) == [Plain(x[0])] + AsPlain(x[1..]);
      ConcatAssoc([Plain(x[0])], AsPlain(x[1..]), rest);
      DeadStrict(x[1..], rest, valid, maxIndex);
      StrictlyUnfolded(Plain(x[0]), AsPlain(x[1..]) + rest, valid, maxIndex);
    }
  }

  /** More protection keeps the strict guard and leaves no group inside the window; evidence
      is left exactly when some marker inside the window still is. */
  lemma {:induction false} HiddenStrict(ctx: Context, t: Text, t': Text, valid: Evidence, maxIndex: int)
    requires Hides(t, t')
    ensures var a, a' := Scan(ctx, t), Scan(ctx, t');
      && (StrictlyBacked(a, valid, maxIndex) ==> StrictlyBacked(a', valid, maxIndex))
      && (GroupsOutside(a, maxIndex) ==> GroupsOutside(a', maxIndex))
      && (HasEvidence(a', maxIndex) <==> SomeLeft(a, t', InWindow(maxIndex)))
    decreases |t|
  {
    hide Hides, MarkAt, Scan, StrictlyBacked, GroupsOutside, HasEvidence, SomeLeft, AllBacked, Dead;
    if t == [] {
      HidesNothing(t');
      NothingScanned(ctx);
      NothingStrict(valid, maxIndex, t');
    } else {
      HidesHead(t, t');
      HiddenStep(ctx, t, t');
      var m := MarkAt(ctx, t);
      var n := if m.Some? then m.value else 1;
      var next := if m.Some? then NEUTRAL else After(ctx, t[0].c);
      var h := if m.Some? then MarkOf(t[..n]) else Plain(t[0]);
      var rest, rest' := Scan(next, t[n..]), Scan(next, t'[n..]);
      assert t' != [] && |RenderAtom(h)| == n;
      HiddenStrict(next, t[n..], t'[n..], valid, maxIndex);
      StrictlyUnfolded(h, rest, valid, maxIndex);
      SomeLeftUnfold(h, rest, t', InWindow(maxIndex));
      if m.Some? && t'[0].protected {
        DeadStrict(t'[..n], rest', valid, maxIndex);
      } else {
        var h' := if m.Some? then MarkOf(t'[..n]) else Plain(t'[0]);
        StrictlyUnfolded(h', rest', valid, maxIndex);
      }
    }
  }

  lemma {:induction false} NothingStrict(valid: Evidence, maxIndex: int, t: Text)
    ensures StrictlyBacked([], valid, maxIndex) && GroupsOutside([], maxIndex) && !HasEvidence([], maxIndex) && !SomeLeft([], t, InWindow(maxIndex))
  {
  }
}
