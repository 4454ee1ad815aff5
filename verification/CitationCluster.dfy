/** Citation clusters: which groups an expansion touches, which texts pass the citation
    guard, and why the guard accepts what the expansion produced
    (citationtext/citation.go and citationtext/valid_adjacent.go). */
module CitationCluster {
  import opened GoText
  import opened Citation

  type Evidence = nat -> bool

  predicate AllBacked(valid: Evidence, ns: seq<nat>) {
    forall i :: 0 <= i < |ns| ==> valid(ns[i])
  }

  // ----- Adjacency -----

  /** Whether only blanks separate the position after h from the last marker. */
  function NearAfter(near: bool, h: Atom): bool {
    h.Mark? || (near && IsBlank(h.ch.c))
  }

  /** Whether only blanks separate the front from the next marker. */
  predicate MarkAhead(a: seq<Atom>) {
    a != [] && (a[0].Mark? || (IsBlank(a[0].ch.c) && MarkAhead(a[1..])))
  }

  /** The groups CanonicalizeAdjacent expands: compound, fully backed, inside a cluster. */
  function Cluster(a: seq<Atom>, near: bool, valid: Evidence): (pick: seq<bool>)
    ensures |pick| == |a|
  {
    if a == [] then []
    else
      [a[0].Mark? && a[0].compound && a[0].indices != [] && AllBacked(valid, a[0].indices) && (near || MarkAhead(a[1..]))]
      + Cluster(a[1..], NearAfter(near, a[0]), valid)
  }

  function Expanded(a: seq<Atom>, near: bool, valid: Evidence): seq<Atom> {
    ExpandBy(a, Cluster(a, near, valid))
  }

  lemma {:induction false} ClusterExpandable(a: seq<Atom>, near: bool, valid: Evidence)
    ensures Expandable(a, Cluster(a, near, valid))
  {
    if a != [] {
      ClusterExpandable(a[1..], NearAfter(near, a[0]), valid);
      var pick := Cluster(a, near, valid);
      forall i | 0 <= i < |a| && pick[i] ensures a[i].Mark? && a[i].indices != [] {
        if i > 0 { assert pick[1..][i - 1] && a[1..][i - 1] == a[i]; }
      }
    }
  }

  /** CanonicalizeAdjacent: never an error; the input unchanged if it would grow too much. */
  function CanonicalizeAdjacentSpec(t: Text, valid: Evidence): Text {
    var out := Render(Expanded(Scan(NEUTRAL, t), false, valid));
    if ByteLen(Chars(out)) > ByteLen(Chars(t)) + MAX_EXPANSION_BYTES then t else out
  }

  /** The guard: every single marker and every group inside a cluster is backed. */
  predicate Guarded(a: seq<Atom>, near: bool, valid: Evidence) {
    a != [] ==>
      && (a[0].Mark? && (!a[0].compound || near || MarkAhead(a[1..])) ==> a[0].indices != [] && AllBacked(valid, a[0].indices))
      && Guarded(a[1..], NearAfter(near, a[0]), valid)
  }

  /** Some marker counts as evidence. */
  predicate Cited(a: seq<Atom>, near: bool) {
    a != [] && ((a[0].Mark? && (!a[0].compound || near || MarkAhead(a[1..]))) || Cited(a[1..], NearAfter(near, a[0])))
  }

  predicate ValidAdjacentSpec(t: Text, valid: Evidence, requireMarker: bool) {
    var a := Scan(NEUTRAL, t);
    Guarded(a, false, valid) && (!requireMarker || Cited(a, false))
  }

  // ----- Expansion keeps clusters in place -----

  lemma {:induction false} AheadOfExpansion(a: seq<Atom>, near: bool, valid: Evidence)
    ensures MarkAhead(Expanded(a, near, valid)) == MarkAhead(a)
  {
    if a != [] {
      var rest := Expanded(a[1..], NearAfter(near, a[0]), valid);
      var e := Expanded(a, near, valid);
      assert Cluster(a, near, valid)[1..] == Cluster(a[1..], NearAfter(near, a[0]), valid);
      if a[0].Plain? {
        AheadOfExpansion(a[1..], NearAfter(near, a[0]), valid);
        assert e == [a[0]] + rest && e[1..] == rest;
      } else {
        assert e[0].Mark?;
      }
    }
  }

  lemma {:induction false} SinglesGuarded(ns: seq<nat>, rest: seq<Atom>, near: bool, valid: Evidence)
    requires ns != []
    ensures Guarded(Singles(ns) + rest, near, valid) <==> AllBacked(valid, ns) && Guarded(rest, true, valid)
    ensures Cited(Singles(ns) + rest, near)
  {
    var s := Singles(ns) + rest;
    assert s[0] == Single(ns[0]);
    BackedCons(valid, ns);
    if |ns| == 1 {
      assert s[1..] == rest;
    } else {
      assert s[1..] == Singles(ns[1..]) + rest;
      SinglesGuarded(ns[1..], rest, true, valid);
    }
  }

  lemma {:induction false} BackedCons(valid: Evidence, ns: seq<nat>)
    requires ns != []
    ensures AllBacked(valid, ns) <==> AllBacked(valid, [ns[0]]) && AllBacked(valid, ns[1..])
  {
    if AllBacked(valid, [ns[0]]) {
      assert valid([ns[0]][0]);
    }
    forall i | AllBacked(valid, [ns[0]]) && AllBacked(valid, ns[1..]) && 0 <= i < |ns| ensures valid(ns[i]) {
      if i > 0 { assert valid(ns[1..][i - 1]); }
    }
    forall i | AllBacked(valid, ns) && 0 <= i < |ns[1..]| ensures valid(ns[1..][i]) {
      assert valid(ns[i + 1]);
    }
  }

  lemma {:induction false} ExpandedUnfold(a: seq<Atom>, near: bool, valid: Evidence)
    requires a != []
    ensures Expanded(a, near, valid) ==
      (if Cluster(a, near, valid)[0] then Singles(Dedup(a[0].indices)) else [a[0]]) + Expanded(a[1..], NearAfter(near, a[0]), valid)
  {
    assert Cluster(a, near, valid)[1..] == Cluster(a[1..], NearAfter(near, a[0]), valid);
  }

  lemma {:induction false} DedupBacked(valid: Evidence, ns: seq<nat>)
    requires AllBacked(valid, ns)
    ensures AllBacked(valid, Dedup(ns))
  {
    forall i | 0 <= i < |Dedup(ns)| ensures valid(Dedup(ns)[i]) {
      assert Dedup(ns)[i] in ns;
    }
  }

  /** A text that passes the guard passes it after expansion, with its evidence. */
  lemma {:induction false} ExpansionStaysGuarded(a: seq<Atom>, near: bool, valid: Evidence)
    requires Guarded(a, near, valid)
    ensures Guarded(Expanded(a, near, valid), near, valid)
    ensures Cited(a, near) ==> Cited(Expanded(a, near, valid), near)
  {
    if a != [] {
      var near' := NearAfter(near, a[0]);
      var rest := Expanded(a[1..], near', valid);
      ExpansionStaysGuarded(a[1..], near', valid);
      AheadOfExpansion(a[1..], near', valid);
      ExpandedUnfold(a, near, valid);
      if Cluster(a, near, valid)[0] {
        DedupBacked(valid, a[0].indices);
        SinglesGuarded(Dedup(a[0].indices), rest, near, valid);
      } else {
        assert ([a[0]] + rest)[1..] == rest;
      }
    }
  }

  /** No compound group abuts another marker. */
  predicate NoCompoundInCluster(a: seq<Atom>, near: bool) {
    a != [] ==>
      && (a[0].Mark? && a[0].compound ==> !near && !MarkAhead(a[1..]))
      && NoCompoundInCluster(a[1..], NearAfter(near, a[0]))
  }

  lemma {:induction false} SinglesInCluster(ns: seq<nat>, rest: seq<Atom>, near: bool)
    requires ns != []
    ensures NoCompoundInCluster(Singles(ns) + rest, near) <==> NoCompoundInCluster(rest, true)
  {
    var s := Singles(ns) + rest;
    assert s[0] == Single(ns[0]);
    if |ns| == 1 {
      assert s[1..] == rest;
    } else {
      assert s[1..] == Singles(ns[1..]) + rest;
      SinglesInCluster(ns[1..], rest, true);
    }
  }

  lemma {:induction false} ClustersFullyExpanded(a: seq<Atom>, near: bool, valid: Evidence)
    requires Guarded(a, near, valid)
    ensures NoCompoundInCluster(Expanded(a, near, valid), near)
  {
    if a != [] {
      var near' := NearAfter(near, a[0]);
      var rest := Expanded(a[1..], near', valid);
      ClustersFullyExpanded(a[1..], near', valid);
      AheadOfExpansion(a[1..], near', valid);
      ExpandedUnfold(a, near, valid);
      if Cluster(a, near, valid)[0] {
        SinglesInCluster(Dedup(a[0].indices), rest, near);
      } else {
        assert ([a[0]] + rest)[1..] == rest;
      }
    }
  }

  // ----- Reading the expansion back -----

  lemma {:induction false} CutOfExpansion(t: Text, valid: Evidence)
    ensures var a := Scan(NEUTRAL, t); Scan(NEUTRAL, Render(Expanded(a, false, valid))) == Expanded(a, false, valid)
  {
    var a := Scan(NEUTRAL, t);
    RenderScan(NEUTRAL, t);
    ClusterExpandable(a, false, valid);
    Rescan(NEUTRAL, a, Cluster(a, false, valid));
  }

  // ----- The expansion, position by position -----

  predicate BlanksFrom(a: seq<Atom>, lo: nat, hi: nat)
    requires hi <= |a|
  {
    forall k :: lo <= k < hi ==> a[k].Plain? && IsBlank(a[k].ch.c)
  }

  /** Only blanks separate position i from a marker before it, or from the start if that
      counts as near. */
  predicate NearAt(a: seq<Atom>, near: bool, i: nat)
    requires i <= |a|
  {
    (near && BlanksFrom(a, 0, i)) || exists j :: 0 <= j < i && a[j].Mark? && BlanksFrom(a, j + 1, i)
  }

  /** Only blanks separate position i from a marker at or behind it. */
  predicate AheadAt(a: seq<Atom>, i: nat)
    requires i <= |a|
  {
    exists j :: i <= j < |a| && a[j].Mark? && BlanksFrom(a, i, j)
  }

  /** A group that is expanded: compound, its indices readable and all backed, and next to
      another marker. */
  predicate Expands(a: seq<Atom>, near: bool, valid: Evidence, i: nat)
    requires i < |a|
  {
    && a[i].Mark? && a[i].compound && a[i].indices != [] && AllBacked(valid, a[i].indices)
    && (NearAt(a, near, i) || AheadAt(a, i + 1))
  }

  lemma {:induction false} BlanksTail(a: seq<Atom>, lo: nat, hi: nat)
    requires a != [] && lo <= hi < |a|
    ensures BlanksFrom(a, lo + 1, hi + 1) <==> BlanksFrom(a[1..], lo, hi)
  {
    if BlanksFrom(a, lo + 1, hi + 1) {
      forall k | lo <= k < hi ensures a[1..][k].Plain? && IsBlank(a[1..][k].ch.c) { assert a[1..][k] == a[k + 1]; }
    }
    if BlanksFrom(a[1..], lo, hi) {
      forall k | lo + 1 <= k < hi + 1 ensures a[k].Plain? && IsBlank(a[k].ch.c) { assert a[k] == a[1..][k - 1]; }
    }
  }

  lemma {:induction false} MarkAheadIff(a: seq<Atom>)
    ensures MarkAhead(a) <==> AheadAt(a, 0)
  {
    if a != [] {
      MarkAheadIff(a[1..]);
      if a[0].Mark? {
        assert BlanksFrom(a, 0, 0);
      } else {
        if AheadAt(a, 0) {
          var j :| 0 <= j < |a| && a[j].Mark? && BlanksFrom(a, 0, j);
          BlanksTail(a, 0, j - 1);
          assert a[1..][j - 1].Mark? && BlanksFrom(a[1..], 0, j - 1);
        }
        if MarkAhead(a) {
          var j :| 0 <= j < |a[1..]| && a[1..][j].Mark? && BlanksFrom(a[1..], 0, j);
          BlanksTail(a, 0, j);
          assert a[j + 1].Mark? && BlanksFrom(a, 0, j + 1);
        }
      }
    }
  }

  lemma {:induction false} AheadTail(a: seq<Atom>, i: nat)
    requires a != [] && i < |a|
    ensures AheadAt(a, i + 1) <==> AheadAt(a[1..], i)
  {
    if AheadAt(a, i + 1) {
      var j :| i + 1 <= j < |a| && a[j].Mark? && BlanksFrom(a, i + 1, j);
      BlanksTail(a, i, j - 1);
      assert a[1..][j - 1].Mark?;
    }
    if AheadAt(a[1..], i) {
      var j :| i <= j < |a[1..]| && a[1..][j].Mark? && BlanksFrom(a[1..], i, j);
      BlanksTail(a, i, j);
      assert a[j + 1].Mark?;
    }
  }

  lemma {:induction false} NearTail(a: seq<Atom>, near: bool, i: nat)
    requires a != [] && i < |a|
    ensures NearAt(a, near, i + 1) <==> NearAt(a[1..], NearAfter(near, a[0]), i)
  {
    if NearAt(a, near, i + 1) {
      if j :| 0 <= j < i + 1 && a[j].Mark? && BlanksFrom(a, j + 1, i + 1) {
        if j == 0 {
          BlanksTail(a, 0, i);
        } else {
          BlanksTail(a, j, i);
          assert a[1..][j - 1].Mark?;
        }
      } else {
        BlanksTail(a, 0, i);
      }
    }
    if NearAt(a[1..], NearAfter(near, a[0]), i) {
      if j :| 0 <= j < i && a[1..][j].Mark? && BlanksFrom(a[1..], j + 1, i) {
        BlanksTail(a, j + 1, i);
        assert a[j + 1].Mark?;
      } else {
        BlanksTail(a, 0, i);
      }
    }
  }

  lemma {:induction false} ClusterMeaning(a: seq<Atom>, near: bool, valid: Evidence, i: nat)
    requires i < |a|
    ensures Cluster(a, near, valid)[i] <==> Expands(a, near, valid, i)
  {
    if i == 0 {
      MarkAheadIff(a[1..]);
      AheadTail(a, 0);
      assert NearAt(a, near, 0) <==> near;
    } else {
      ClusterMeaning(a[1..], NearAfter(near, a[0]), valid, i - 1);
      NearTail(a, near, i - 1);
      AheadTail(a, i);
    }
  }

  /** A marker that the guard judges: a single one, or a group next to another marker. */
  predicate Judged(a: seq<Atom>, near: bool, i: nat)
    requires i < |a|
  {
    a[i].Mark? && (!a[i].compound || NearAt(a, near, i) || AheadAt(a, i + 1))
  }

  lemma {:induction false} JudgedTail(a: seq<Atom>, near: bool, i: nat)
    requires i + 1 < |a|
    ensures Judged(a, near, i + 1) <==> Judged(a[1..], NearAfter(near, a[0]), i)
  {
    NearTail(a, near, i);
    AheadTail(a, i + 1);
    assert a[1..][i] == a[i + 1];
  }

  lemma {:induction false} JudgedFirst(a: seq<Atom>, near: bool)
    requires a != []
    ensures Judged(a, near, 0) <==> a[0].Mark? && (!a[0].compound || near || MarkAhead(a[1..]))
  {
    MarkAheadIff(a[1..]);
    AheadTail(a, 0);
    assert NearAt(a, near, 0) <==> near;
  }

  /** The guard, by position: every judged marker has readable indices that are all backed,
      and a citation is there exactly if one is judged. */
  lemma {:induction false} GuardMeaning(a: seq<Atom>, near: bool, valid: Evidence)
    ensures Guarded(a, near, valid) <==> forall i :: 0 <= i < |a| && Judged(a, near, i) ==> a[i].indices != [] && AllBacked(valid, a[i].indices)
    ensures Cited(a, near) <==> exists i :: 0 <= i < |a| && Judged(a, near, i)
  {
    hide NearAt, AheadAt, Judged;
    if a != [] {
      var rest, near' := a[1..], NearAfter(near, a[0]);
      GuardMeaning(rest, near', valid);
      JudgedFirst(a, near);
      forall i | 0 <= i < |rest| ensures Judged(a, near, i + 1) <==> Judged(rest, near', i) { JudgedTail(a, near, i); }
      forall i | 0 < i < |a| ensures a[i] == rest[i - 1] && (Judged(a, near, i) <==> Judged(rest, near', i - 1)) {}
    }
  }

  /** What stands in the place of each atom. */
  function Pieces(a: seq<Atom>, near: bool, valid: Evidence): (pieces: seq<seq<Atom>>)
    ensures |pieces| == |a|
  {
    seq(|a|, i requires 0 <= i < |a| => if Expands(a, near, valid, i) then Singles(Dedup(a[i].indices)) else [a[i]])
  }

  /** The expansion changes nothing outside the groups it expands, and expands them in place
      and in order: it is the sequence of atoms with each expanded group replaced by the
      single markers of its indices, each once. */
  lemma {:induction false} ExpansionIsInPlace(a: seq<Atom>, near: bool, valid: Evidence)
    ensures Expanded(a, near, valid) == Flatten(Pieces(a, near, valid))
  {
    if a != [] {
      var near' := NearAfter(near, a[0]);
      ExpandedUnfold(a, near, valid);
      ClusterMeaning(a, near, valid, 0);
      ExpansionIsInPlace(a[1..], near', valid);
      var pieces := Pieces(a, near, valid);
      forall i | 0 <= i < |a| - 1 ensures pieces[1..][i] == Pieces(a[1..], near', valid)[i] {
        NearTail(a, near, i);
        AheadTail(a, i + 1);
        assert a[1..][i] == a[i + 1];
      }
      assert pieces[1..] == Pieces(a[1..], near', valid);
    }
  }

  function Plains(a: seq<Atom>): seq<Atom> {
    if a == [] then [] else (if a[0].Plain? then [a[0]] else []) + Plains(a[1..])
  }

  lemma {:induction false} PlainsAppend(a: seq<Atom>, b: seq<Atom>)
    ensures Plains(a + b) == Plains(a) + Plains(b)
  {
    if a == [] {
      assert a + b == b;
    } else {
      var head := if a[0].Plain? then [a[0]] else [];
      assert (a + b)[1..] == a[1..] + b && (a + b)[0] == a[0];
      PlainsAppend(a[1..], b);
      ConcatAssoc(head, Plains(a[1..]), Plains(b));
    }
  }

  lemma {:induction false} SinglesHaveNoPlains(ns: seq<nat>)
    ensures Plains(Singles(ns)) == []
  {
    if ns != [] {
      assert Singles(ns)[1..] == Singles(ns[1..]);
      SinglesHaveNoPlains(ns[1..]);
    }
  }

  /** An atom of the output: an original one, or a single marker for a backed index of an
      original group. */
  ghost predicate Accounted(x: Atom, a: seq<Atom>, valid: Evidence) {
    || x in a
    || exists i, n :: 0 <= i < |a| && a[i].Mark? && a[i].compound && n in a[i].indices && valid(n) && x == Single(n)
  }

  lemma {:induction false} ExpansionAddsOnlyBackedSingles(a: seq<Atom>, near: bool, valid: Evidence)
    ensures Plains(Expanded(a, near, valid)) == Plains(a)
    ensures forall x :: x in Expanded(a, near, valid) ==> Accounted(x, a, valid)
  {
    if a != [] {
      var near' := NearAfter(near, a[0]);
      var rest := Expanded(a[1..], near', valid);
      ExpansionAddsOnlyBackedSingles(a[1..], near', valid);
      ExpandedUnfold(a, near, valid);
      var head := if Cluster(a, near, valid)[0] then Singles(Dedup(a[0].indices)) else [a[0]];
      PlainsAppend(head, rest);
      if Cluster(a, near, valid)[0] {
        SinglesHaveNoPlains(Dedup(a[0].indices));
      }
      forall x | x in head + rest ensures Accounted(x, a, valid) {
        if x in rest {
          AccountedTail(x, a, valid);
        } else {
          var k :| 0 <= k < |head| && head[k] == x;
          if Cluster(a, near, valid)[0] {
            var n := Dedup(a[0].indices)[k];
            assert n in a[0].indices && x == Single(n);
          }
        }
      }
    }
  }

  lemma {:induction false} AccountedTail(x: Atom, a: seq<Atom>, valid: Evidence)
    requires a != [] && Accounted(x, a[1..], valid)
    ensures Accounted(x, a, valid)
  {
    if x !in a[1..] {
      var i, n :| 0 <= i < |a[1..]| && a[1..][i].Mark? && a[1..][i].compound && n in a[1..][i].indices && valid(n) && x == Single(n);
      assert a[i + 1] == a[1..][i];
    }
  }
}
