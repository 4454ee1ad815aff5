/** The strict citation boundary (Canonicalize and Valid in citationtext/citation.go):
    every compound group inside the evidence window is expanded, or the text is refused. */
module CitationStrict {
  import opened GoText
  import opened Citation
  import opened CitationCluster
  import opened CitationText

  /** A well-formed group wholly above a known evidence window is prose. */
  predicate OutsideWindow(m: Atom, maxIndex: int) {
    && m.Mark? && m.compound && maxIndex >= 0 && m.indices != []
    && forall i :: 0 <= i < |m.indices| ==> m.indices[i] > maxIndex
  }

  predicate MustResolve(m: Atom, maxIndex: int) {
    m.Mark? && m.compound && !OutsideWindow(m, maxIndex)
  }

  predicate Resolved(m: Atom, valid: Evidence, maxIndex: int) {
    MustResolve(m, maxIndex) ==> m.indices != [] && AllBacked(valid, m.indices)
  }

  predicate AllResolved(a: seq<Atom>, valid: Evidence, maxIndex: int) {
    a != [] ==> Resolved(a[0], valid, maxIndex) && AllResolved(a[1..], valid, maxIndex)
  }

  function StrictPick(a: seq<Atom>, maxIndex: int): (pick: seq<bool>)
    ensures |pick| == |a|
  {
    if a == [] then [] else [MustResolve(a[0], maxIndex) && a[0].indices != []] + StrictPick(a[1..], maxIndex)
  }

  function StrictExpanded(a: seq<Atom>, maxIndex: int): seq<Atom> {
    ExpandBy(a, StrictPick(a, maxIndex))
  }

  /** Canonicalize: None is ErrInvalid, with the content returned unchanged. */
  function CanonicalizeSpec(t: Text, valid: Evidence, maxIndex: int): Option<Text> {
    var a := Scan(NEUTRAL, t);
    var out := Render(StrictExpanded(a, maxIndex));
    if AllResolved(a, valid, maxIndex) && ByteLen(Chars(out)) <= ByteLen(Chars(t)) + MAX_EXPANSION_BYTES then Some(out) else None
  }

  /** Valid without the marker requirement, and the marker requirement. */
  predicate StrictlyBacked(a: seq<Atom>, valid: Evidence, maxIndex: int) {
    a != [] ==>
      && (a[0].Mark? && !OutsideWindow(a[0], maxIndex) ==> a[0].indices != [] && AllBacked(valid, a[0].indices))
      && StrictlyBacked(a[1..], valid, maxIndex)
  }

  predicate HasEvidence(a: seq<Atom>, maxIndex: int) {
    a != [] && ((a[0].Mark? && !OutsideWindow(a[0], maxIndex)) || HasEvidence(a[1..], maxIndex))
  }

  predicate ValidSpec(t: Text, valid: Evidence, maxIndex: int, requireMarker: bool) {
    var a := Scan(NEUTRAL, t);
    StrictlyBacked(a, valid, maxIndex) && (!requireMarker || HasEvidence(a, maxIndex))
  }

  lemma {:induction false} StrictExpandable(a: seq<Atom>, maxIndex: int)
    ensures Expandable(a, StrictPick(a, maxIndex))
  {
    if a != [] {
      StrictExpandable(a[1..], maxIndex);
      var pick := StrictPick(a, maxIndex);
      forall i | 0 <= i < |a| && pick[i] ensures a[i].Mark? && a[i].indices != [] {
        if i > 0 { assert pick[1..][i - 1] && a[1..][i - 1] == a[i]; }
      }
    }
  }

  lemma {:induction false} StrictUnfold(a: seq<Atom>, maxIndex: int)
    requires a != []
    ensures StrictExpanded(a, maxIndex)
         == (if MustResolve(a[0], maxIndex) && a[0].indices != [] then Singles(Dedup(a[0].indices)) else [a[0]]) + StrictExpanded(a[1..], maxIndex)
  {
    assert StrictPick(a, maxIndex)[1..] == StrictPick(a[1..], maxIndex);
  }

  lemma {:induction false} SingleStrict(n: nat, t: seq<Atom>, valid: Evidence, maxIndex: int)
    ensures StrictExpanded([Single(n)] + t, maxIndex) == [Single(n)] + StrictExpanded(t, maxIndex)
    ensures AllResolved([Single(n)] + t, valid, maxIndex) <==> AllResolved(t, valid, maxIndex)
    ensures StrictlyBacked([Single(n)] + t, valid, maxIndex) <==> AllBacked(valid, [n]) && StrictlyBacked(t, valid, maxIndex)
    ensures HasEvidence([Single(n)] + t, maxIndex)
  {
    var s := [Single(n)] + t;
    assert s[0] == Single(n) && s[1..] == t;
    StrictUnfold(s, maxIndex);
  }

  lemma {:induction false} SinglesStrict(ns: seq<nat>, rest: seq<Atom>, valid: Evidence, maxIndex: int)
    ensures StrictExpanded(Singles(ns) + rest, maxIndex) == Singles(ns) + StrictExpanded(rest, maxIndex)
    ensures AllResolved(Singles(ns) + rest, valid, maxIndex) <==> AllResolved(rest, valid, maxIndex)
    ensures StrictlyBacked(Singles(ns) + rest, valid, maxIndex) <==> AllBacked(valid, ns) && StrictlyBacked(rest, valid, maxIndex)
    ensures ns != [] ==> HasEvidence(Singles(ns) + rest, maxIndex)
  {
    if ns == [] {
      assert Singles(ns) + rest == rest && Singles(ns) == [];
    } else {
      var t := Singles(ns[1..]) + rest;
      assert Singles(ns) == [Single(ns[0])] + Singles(ns[1..]);
      ConcatAssoc([Single(ns[0])], Singles(ns[1..]), rest);
      ConcatAssoc([Single(ns[0])], Singles(ns[1..]), StrictExpanded(rest, maxIndex));
      SingleStrict(ns[0], t, valid, maxIndex);
      BackedCons(valid, ns);
      SinglesStrict(ns[1..], rest, valid, maxIndex);
    }
  }

  /** A second strict expansion finds nothing to do, and expansion neither adds nor hides
      a violation of the boundary. */
  lemma {:induction false} StrictOnce(a: seq<Atom>, valid: Evidence, maxIndex: int)
    requires AllResolved(a, valid, maxIndex)
    ensures var e := StrictExpanded(a, maxIndex);
      && StrictExpanded(e, maxIndex) == e && AllResolved(e, valid, maxIndex)
      && (StrictlyBacked(e, valid, maxIndex) <==> StrictlyBacked(a, valid, maxIndex))
      && (HasEvidence(e, maxIndex) <==> HasEvidence(a, maxIndex))
      && forall i :: 0 <= i < |e| && e[i].Mark? && e[i].compound ==> OutsideWindow(e[i], maxIndex)
  {
    if a != [] {
      var rest := StrictExpanded(a[1..], maxIndex);
      StrictOnce(a[1..], valid, maxIndex);
      StrictUnfold(a, maxIndex);
      if MustResolve(a[0], maxIndex) {
        DedupBacked(valid, a[0].indices);
        SinglesStrict(Dedup(a[0].indices), rest, valid, maxIndex);
      } else {
        var e := [a[0]] + rest;
        assert e[1..] == rest;
        StrictUnfold(e, maxIndex);
      }
    }
  }

  /** The strict guard, by position: every marker that is no group above the window has
      readable indices that are all backed, and evidence is there exactly if there is one. */
  lemma {:induction false} StrictGuardMeaning(a: seq<Atom>, valid: Evidence, maxIndex: int)
    ensures StrictlyBacked(a, valid, maxIndex)
       <==> forall i :: 0 <= i < |a| && a[i].Mark? && !OutsideWindow(a[i], maxIndex) ==> a[i].indices != [] && AllBacked(valid, a[i].indices)
    ensures HasEvidence(a, maxIndex) <==> exists i :: 0 <= i < |a| && a[i].Mark? && !OutsideWindow(a[i], maxIndex)
    ensures AllResolved(a, valid, maxIndex)
       <==> forall i :: 0 <= i < |a| && a[i].Mark? && a[i].compound && !OutsideWindow(a[i], maxIndex) ==> a[i].indices != [] && AllBacked(valid, a[i].indices)
  {
    hide OutsideWindow, AllBacked;
    if a != [] {
      StrictGuardMeaning(a[1..], valid, maxIndex);
      assert forall i :: 0 < i < |a| ==> a[i] == a[1..][i - 1];
      assert forall i :: 0 <= i < |a| - 1 ==> a[1..][i] == a[i + 1];
    }
  }

  /** What stands in the place of each atom: the groups inside the window expanded. */
  function StrictPieces(a: seq<Atom>, maxIndex: int): (pieces: seq<seq<Atom>>)
    ensures |pieces| == |a|
  {
    seq(|a|, i requires 0 <= i < |a| =>
      if a[i].Mark? && a[i].compound && a[i].indices != [] && !OutsideWindow(a[i], maxIndex) then Singles(Dedup(a[i].indices)) else [a[i]])
  }

  lemma {:induction false} StrictExpansionIsInPlace(a: seq<Atom>, maxIndex: int)
    ensures StrictExpanded(a, maxIndex) == Flatten(StrictPieces(a, maxIndex))
  {
    hide OutsideWindow, Dedup;
    if a != [] {
      StrictUnfold(a, maxIndex);
      StrictExpansionIsInPlace(a[1..], maxIndex);
      assert StrictPieces(a, maxIndex)[1..] == StrictPieces(a[1..], maxIndex);
    }
  }

  // ----- The loops of the source -----

  function RenderStrict(m: Atom, maxIndex: int): Text {
    if MustResolve(m, maxIndex) && m.indices != [] then Render(Singles(Dedup(m.indices))) else RenderAtom(m)
  }

  lemma {:induction false} StrictExpansionOf(a: seq<Atom>, maxIndex: int)
    requires a != []
    ensures Render(StrictExpanded(a, maxIndex)) == RenderStrict(a[0], maxIndex) + Render(StrictExpanded(a[1..], maxIndex))
  {
    StrictUnfold(a, maxIndex);
    if MustResolve(a[0], maxIndex) && a[0].indices != [] {
      RenderAppend(Singles(Dedup(a[0].indices)), StrictExpanded(a[1..], maxIndex));
    } else {
      RenderCons(a[0], StrictExpanded(a[1..], maxIndex));
    }
  }

  lemma {:induction false} StrictTurn(content: Text, rest: seq<Atom>, pos: nat, markers: seq<Marker>, near: bool, valid: Evidence, maxIndex: int)
    requires Tail(content, rest, pos, markers)
    ensures NextTurn(rest, near).None? ==>
              AllResolved(rest, valid, maxIndex) && Render(StrictExpanded(rest, maxIndex)) == content[pos..]
    ensures NextTurn(rest, near).Some? ==>
              var k := NextTurn(rest, near).value;
              && markers != [] && pos <= markers[0].start <= |content|
              && (AllResolved(rest, valid, maxIndex) <==> Resolved(k.m, valid, maxIndex) && AllResolved(k.rest, valid, maxIndex))
              && Render(StrictExpanded(rest, maxIndex))
                 == content[pos..markers[0].start] + (RenderStrict(k.m, maxIndex) + Render(StrictExpanded(k.rest, maxIndex)))
    decreases rest
  {
    if rest == [] {
    } else if rest[0].Plain? {
      TailPlain(content, rest, pos, markers);
      StrictTurn(content, rest[1..], pos + 1, markers, NearAfter(near, rest[0]), valid, maxIndex);
      StrictExpansionOf(rest, maxIndex);
      var r := NextTurn(rest, near);
      if r.Some? {
        SliceCons(content, pos, markers[0].start, RenderStrict(r.value.m, maxIndex) + Render(StrictExpanded(r.value.rest, maxIndex)));
      } else {
        assert content[pos..] == [content[pos]] + content[pos + 1..];
      }
    } else {
      TailMark(content, rest, pos, markers);
      StrictExpansionOf(rest, maxIndex);
      assert content[pos..pos] == [];
    }
  }

  ghost predicate StrictBuilt(content: Text, b: Text, offset: nat, pos: nat, rest: seq<Atom>, maxIndex: int) {
    && offset <= pos <= |content|
    && b + content[offset..pos] + Render(StrictExpanded(rest, maxIndex)) == Render(StrictExpanded(Scan(NEUTRAL, content), maxIndex))
  }

  lemma {:induction false} StrictStep(content: Text, markers: seq<Marker>, i: nat, b: Text, offset: nat, pos: nat, rest: seq<Atom>, valid: Evidence, maxIndex: int)
    requires AtMarker(content, markers, i, rest, pos) && i < |markers|
    requires StrictBuilt(content, b, offset, pos, rest, maxIndex)
    ensures NextTurn(rest, i > 0).Some?
    ensures var k := NextTurn(rest, i > 0).value;
      && (AllResolved(rest, valid, maxIndex) <==> Resolved(k.m, valid, maxIndex) && AllResolved(k.rest, valid, maxIndex))
      && (if MustResolve(k.m, maxIndex) && k.m.indices != []
          then offset <= markers[i].start
               && StrictBuilt(content, b + content[offset..markers[i].start] + Render(Singles(Dedup(k.m.indices))), markers[i].end, markers[i].end, k.rest, maxIndex)
          else StrictBuilt(content, b, offset, markers[i].end, k.rest, maxIndex))
  {
    MarkerTurn(content, markers, i, rest, pos, valid);
    StrictTurn(content, rest, pos, markers[i..], i > 0, valid, maxIndex);
    var k := NextTurn(rest, i > 0).value;
    var tail := Render(StrictExpanded(k.rest, maxIndex));
    if MustResolve(k.m, maxIndex) && k.m.indices != [] {
      Replace(content, b, offset, pos, markers[i].start, markers[i].end, Render(Singles(Dedup(k.m.indices))), tail);
    } else {
      Keep(content, b, offset, pos, markers[i].start, markers[i].end, tail);
    }
  }

  /** The builder of an early size check is a prefix of the whole expansion. */
  lemma {:induction false} StrictBound(content: Text, b: Text, offset: nat, pos: nat, rest: seq<Atom>, maxIndex: int)
    requires StrictBuilt(content, b, offset, pos, rest, maxIndex)
    ensures ByteLen(Chars(b)) <= ByteLen(Chars(Render(StrictExpanded(Scan(NEUTRAL, content), maxIndex))))
  {
    ConcatAssoc(b, content[offset..pos], Render(StrictExpanded(rest, maxIndex)));
    PrefixBytes(b, content[offset..pos] + Render(StrictExpanded(rest, maxIndex)));
  }

  lemma {:induction false} StrictAll(content: Text, markers: seq<Marker>, b: Text, offset: nat, pos: nat, rest: seq<Atom>, valid: Evidence, maxIndex: int)
    requires AtMarker(content, markers, |markers|, rest, pos)
    requires StrictBuilt(content, b, offset, pos, rest, maxIndex)
    ensures AllResolved(rest, valid, maxIndex)
    ensures b + content[offset..] == Render(StrictExpanded(Scan(NEUTRAL, content), maxIndex))
  {
    NoMoreMarkers(content, markers, rest, pos, valid);
    StrictTurn(content, rest, pos, markers[|markers|..], |markers| > 0, valid, maxIndex);
    TurnMeaning(content, rest, pos, markers[|markers|..], |markers| > 0, valid);
    JoinSlices(content, offset, pos, |content|);
    assert content[offset..|content|] == content[offset..] && content[pos..|content|] == content[pos..];
    ConcatAssoc(b, content[offset..pos], content[pos..]);
  }

  /** One turn: None refuses the text, otherwise the new builder and offset. */
  method ResolveOne(content: Text, markers: seq<Marker>, i: nat, b: Text, offset: nat, valid: Evidence, maxIndex: int,
                    ghost rest: seq<Atom>, ghost pos: nat)
    returns (r: Option<(Text, nat)>)
    requires AtMarker(content, markers, i, rest, pos) && i < |markers|
    requires StrictBuilt(content, b, offset, pos, rest, maxIndex)
    ensures NextTurn(rest, i > 0).Some?
    ensures AtMarker(content, markers, i + 1, NextTurn(rest, i > 0).value.rest, markers[i].end)
    ensures r.None? ==> !AllResolved(rest, valid, maxIndex)
    ensures r.Some? ==>
              && StrictBuilt(content, r.value.0, r.value.1, markers[i].end, NextTurn(rest, i > 0).value.rest, maxIndex)
              && (AllResolved(rest, valid, maxIndex) <==> AllResolved(NextTurn(rest, i > 0).value.rest, valid, maxIndex))
  {
    var m := markers[i];
    MarkerTurn(content, markers, i, rest, pos, valid);
    StrictStep(content, markers, i, b, offset, pos, rest, valid, maxIndex);
    var group := Mark(content[m.start..m.end], m.indices, m.compound);
    if !m.compound || OutsideWindow(group, maxIndex) {
      return Some((b, offset));
    }
    if m.indices == [] || !AllBacked(valid, m.indices) {
      return None;
    }
    var singles := WriteSingles(m.indices);
    return Some((b + content[offset..m.start] + singles, m.end));
  }

  /** Canonicalize. */
  method Canonicalize(content: Text, valid: Evidence, maxIndex: int) returns (r: Option<Text>)
    ensures r == CanonicalizeSpec(content, valid, maxIndex)
  {
    var markers := ScanMarkers(content);
    AtFirstMarker(content, markers);
    var b: Text := [];
    var offset: nat := 0;
    ghost var all := Scan(NEUTRAL, content);
    ghost var rest, pos: nat := all, 0;
    assert content[0..0] == [];
    for i := 0 to |markers|
      invariant AtMarker(content, markers, i, rest, pos)
      invariant StrictBuilt(content, b, offset, pos, rest, maxIndex)
      invariant AllResolved(all, valid, maxIndex) <==> AllResolved(rest, valid, maxIndex)
    {
      var one := ResolveOne(content, markers, i, b, offset, valid, maxIndex, rest, pos);
      if one.None? {
        return None;
      }
      b, offset := one.value.0, one.value.1;
      rest, pos := NextTurn(rest, i > 0).value.rest, markers[i].end;
      if ByteLen(Chars(b)) > ByteLen(Chars(content)) + MAX_EXPANSION_BYTES {
        StrictBound(content, b, offset, pos, rest, maxIndex);
        return None;
      }
    }
    StrictAll(content, markers, b, offset, pos, rest, valid, maxIndex);
    b := b + content[offset..];
    if ByteLen(Chars(b)) > ByteLen(Chars(content)) + MAX_EXPANSION_BYTES {
      return None;
    }
    return Some(b);
  }

  /** What the first marker of a tail means for the strict guard. */
  lemma {:induction false} StrictMeaning(rest: seq<Atom>, near: bool, valid: Evidence, maxIndex: int)
    ensures NextTurn(rest, near).None? ==> StrictlyBacked(rest, valid, maxIndex) && !HasEvidence(rest, maxIndex)
    ensures NextTurn(rest, near).Some? ==>
              var k := NextTurn(rest, near).value;
              && k.m.Mark?
              && (StrictlyBacked(rest, valid, maxIndex)
                  <==> (OutsideWindow(k.m, maxIndex) || (k.m.indices != [] && AllBacked(valid, k.m.indices))) && StrictlyBacked(k.rest, valid, maxIndex))
              && (HasEvidence(rest, maxIndex) <==> !OutsideWindow(k.m, maxIndex) || HasEvidence(k.rest, maxIndex))
    decreases rest
  {
    if rest != [] && rest[0].Plain? {
      StrictMeaning(rest[1..], NearAfter(near, rest[0]), valid, maxIndex);
    }
  }

  /** Valid. */
  method Valid(content: Text, valid: Evidence, maxIndex: int, requireMarker: bool) returns (ok: bool)
    ensures ok == ValidSpec(content, valid, maxIndex, requireMarker)
  {
    var markers := ScanMarkers(content);
    AtFirstMarker(content, markers);
    var hasEvidence := false;
    ghost var all := Scan(NEUTRAL, content);
    ghost var rest, pos: nat := all, 0;
    for i := 0 to |markers|
      invariant AtMarker(content, markers, i, rest, pos)
      invariant StrictlyBacked(all, valid, maxIndex) <==> StrictlyBacked(rest, valid, maxIndex)
      invariant HasEvidence(all, maxIndex) <==> hasEvidence || HasEvidence(rest, maxIndex)
    {
      var m := markers[i];
      MarkerTurn(content, markers, i, rest, pos, valid);
      StrictMeaning(rest, i > 0, valid, maxIndex);
      rest, pos := NextTurn(rest, i > 0).value.rest, m.end;
      var group := Mark(content[m.start..m.end], m.indices, m.compound);
      if OutsideWindow(group, maxIndex) {
        continue;
      }
      if m.indices == [] || !AllBacked(valid, m.indices) {
        return false;
      }
      hasEvidence := true;
    }
    NoMoreMarkers(content, markers, rest, pos, valid);
    TurnMeaning(content, rest, pos, markers[|markers|..], |markers| > 0, valid);
    StrictMeaning(rest, |markers| > 0, valid, maxIndex);
    return !requireMarker || hasEvidence;
  }
}
