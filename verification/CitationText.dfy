/** The citation functions as the source runs them: loops over byte positions, a list of
    markers, and an output builder (citationtext/citation.go and valid_adjacent.go). */
module CitationText {
  import opened GoText
  import opened Citation
  import opened CitationCluster

  datatype Marker = Marker(start: nat, end: nat, indices: seq<nat>, compound: bool)

  // ----- Positions -----

  function MarkersOf(a: seq<Atom>, off: nat): seq<Marker> {
    if a == [] then []
    else if a[0].Plain? then MarkersOf(a[1..], off + 1)
    else [Marker(off, off + |a[0].raw|, a[0].indices, a[0].compound)] + MarkersOf(a[1..], off + |a[0].raw|)
  }

  /** escaped: an odd run of backslashes right before pos. */
  predicate Escaped(t: Text, pos: nat)
    requires pos <= |t|
  {
    pos > 0 && t[pos - 1].c == '\\' && !Escaped(t, pos - 1)
  }

  function ContextAt(t: Text, pos: nat): Context
    requires pos <= |t|
  {
    Context(pos > 0 && t[pos - 1].c == '!', Escaped(t, pos))
  }

  /** The markers still to be found from pos on. */
  function MarkersFrom(t: Text, pos: nat): seq<Marker>
    requires pos <= |t|
  {
    MarkersOf(Scan(ContextAt(t, pos), t[pos..]), pos)
  }

  lemma {:induction false} PlainStep(t: Text, pos: nat)
    requires pos < |t| && MarkAt(ContextAt(t, pos), t[pos..]).None?
    ensures MarkersFrom(t, pos) == MarkersFrom(t, pos + 1)
  {
    assert t[pos..][1..] == t[pos + 1..];
    assert t[pos..] == [t[pos]] + t[pos + 1..];
    ScanOfPlain(ContextAt(t, pos), t[pos], t[pos + 1..]);
    var a := Scan(After(ContextAt(t, pos), t[pos].c), t[pos + 1..]);
    assert ([Plain(t[pos])] + a)[1..] == a;
  }

  lemma {:induction false} MarkStep(t: Text, pos: nat, n: nat)
    requires pos < |t| && MarkAt(ContextAt(t, pos), t[pos..]) == Some(n)
    ensures pos + n <= |t| && n >= 3
    ensures MarkersFrom(t, pos)
         == [Marker(pos, pos + n, GroupIndices(Body(t[pos..pos + n])), CompoundBody(Body(t[pos..pos + n])))] + MarkersFrom(t, pos + n)
  {
    hide Candidate, Scan, MarkersOf, CompoundBody, GroupIndices, Escaped;
    NeutralAfter(t, pos, n);
    CutSlice(t, pos, n);
    ScanOfMark(ContextAt(t, pos), t[pos..pos + n], t[pos + n..]);
    MarkersOfMark(t[pos..pos + n], Scan(NEUTRAL, t[pos + n..]), pos);
  }

  lemma {:induction false} CutSlice(t: Text, pos: nat, n: nat)
    requires pos + n <= |t|
    ensures t[pos..] == t[pos..pos + n] + t[pos + n..]
  {
  }

  lemma {:induction false} MarkersOfMark(raw: Text, a: seq<Atom>, pos: nat)
    requires |raw| >= 2
    ensures MarkersOf([MarkOf(raw)] + a, pos)
         == [Marker(pos, pos + |raw|, GroupIndices(Body(raw)), CompoundBody(Body(raw)))] + MarkersOf(a, pos + |raw|)
  {
    assert ([MarkOf(raw)] + a)[1..] == a;
  }

  /** A marker ends with a bracket, so the context after it is neutral. */
  lemma {:induction false} NeutralAfter(t: Text, pos: nat, n: nat)
    requires pos < |t| && Candidate(t[pos..]) == Some(n)
    ensures pos + n <= |t| && ContextAt(t, pos + n) == NEUTRAL
  {
    CandidateCloses(t[pos..], n);
    assert t[pos + n - 1] == t[pos..][n - 1];
  }

  lemma {:induction false} CandidateCloses(t: Text, n: nat)
    requires Candidate(t) == Some(n)
    ensures t[n - 1].c == ']' && forall i :: 1 <= i < n - 1 ==> t[i].c != '['
  {
    forall i | 1 <= i < n - 1 ensures t[i].c != '[' {
      assert t[i] == t[1..][i - 1];
    }
  }

  /** A candidate that is no marker holds no marker inside either. */
  lemma {:induction false} SkipCandidate(t: Text, pos: nat, upto: nat)
    requires pos <= upto <= |t|
    requires forall i :: pos <= i < upto ==> t[i].c != '['
    ensures MarkersFrom(t, pos) == MarkersFrom(t, upto)
    decreases upto - pos
  {
    if pos < upto {
      PlainStep(t, pos);
      SkipCandidate(t, pos + 1, upto);
    }
  }

  /** The numbers of a group, part by part; none at all once a part is malformed or out of
      bounds. */
  method ReadIndices(body: string) returns (indices: seq<nat>)
    ensures indices == GroupIndices(body)
  {
    hide Item, Trim, Parts;
    var parts := Parts(body);
    assert parts[0..] == parts;
    indices := [];
    for i := 0 to |parts|
      invariant Indices(parts[i..], indices) == GroupIndices(body)
    {
      assert parts[i..][1..] == parts[i + 1..];
      var item := Item(Trim(parts[i]));
      if item.None? {
        return [];
      }
      var (first, last) := item.value;
      if first < 1 || first > MAX_INDEX || last < first || last > MAX_INDEX || last - first + 1 > MAX_GROUP_SIZE - |indices| {
        return [];
      }
      ghost var before := indices;
      for n := first to last + 1
        invariant indices == before + if n == first then [] else Range(first, n - 1)
      {
        indices := indices + [n];
      }
    }
  }

  /** One match of the regular expression: a marker, or ordinary text. */
  method Consider(content: Text, i: nat, n: nat) returns (found: seq<Marker>)
    requires i < |content| && Candidate(content[i..]) == Some(n)
    ensures i + n <= |content| && n >= 3
    ensures MarkersFrom(content, i) == found + MarkersFrom(content, i + n)
  {
    var end := i + n;
    NeutralAfter(content, i, n);
    var raw := content[i..end];
    assert content[i..][..n] == raw;
    assert end < |content| ==> content[i..][n] == content[end];
    if content[i].protected || Escaped(content, i) || (i > 0 && content[i - 1].c == '!')
       || (end < |content| && (content[end].c == '(' || content[end].c == ':'))
       || DateShape(Trim(Body(raw)))
    {
      SkipToEnd(content, i, n);
      return [];
    }
    MarkStep(content, i, n);
    var indices := ReadIndices(Body(raw));
    return [Marker(i, end, indices, CompoundBody(Body(raw)))];
  }

  /** The markers in front of i are found. */
  ghost predicate FoundTo(content: Text, markers: seq<Marker>, i: nat)
    requires i <= |content|
  {
    markers + MarkersFrom(content, i) == MarkersFrom(content, 0)
  }

  lemma {:induction false} FoundNone(content: Text)
    ensures FoundTo(content, [], 0)
  {
    assert [] + MarkersFrom(content, 0) == MarkersFrom(content, 0);
  }

  lemma {:induction false} FoundPlain(content: Text, markers: seq<Marker>, i: nat)
    requires i < |content| && FoundTo(content, markers, i) && MarkAt(ContextAt(content, i), content[i..]).None?
    ensures FoundTo(content, markers, i + 1)
  {
    PlainStep(content, i);
  }

  lemma {:induction false} FoundMore(content: Text, markers: seq<Marker>, i: nat, found: seq<Marker>, end: nat)
    requires i <= end <= |content| && FoundTo(content, markers, i)
    requires MarkersFrom(content, i) == found + MarkersFrom(content, end)
    ensures FoundTo(content, markers + found, end)
  {
    ConcatAssoc(markers, found, MarkersFrom(content, end));
  }

  lemma {:induction false} FoundAll(content: Text, markers: seq<Marker>)
    requires FoundTo(content, markers, |content|)
    ensures markers == MarkersOf(Scan(NEUTRAL, content), 0)
  {
    assert content[0..] == content && content[|content|..] == [];
  }

  method ScanMarkers(content: Text) returns (markers: seq<Marker>)
    ensures markers == MarkersOf(Scan(NEUTRAL, content), 0)
  {
    hide Candidate, Scan, MarkersOf, FoundTo, Escaped;
    markers := [];
    FoundNone(content);
    var i := 0;
    // The candidates of the regular expression, leftmost first, without overlap.
    while i < |content|
      invariant 0 <= i <= |content| && FoundTo(content, markers, i)
    {
      var candidate := Candidate(content[i..]);
      if candidate.None? {
        FoundPlain(content, markers, i);
        i := i + 1;
      } else {
        var found := Consider(content, i, candidate.value);
        FoundMore(content, markers, i, found, i + candidate.value);
        markers := markers + found;
        i := i + candidate.value;
      }
    }
    FoundAll(content, markers);
  }

  lemma {:induction false} SkipToEnd(t: Text, pos: nat, n: nat)
    requires pos < |t| && Candidate(t[pos..]) == Some(n) && MarkAt(ContextAt(t, pos), t[pos..]).None?
    ensures pos + n <= |t| && MarkersFrom(t, pos) == MarkersFrom(t, pos + n)
  {
    hide Scan, MarkersOf, MarkersFrom;
    CandidateCloses(t[pos..], n);
    PlainStep(t, pos);
    forall i | pos + 1 <= i < pos + n ensures t[i].c != '[' {
      assert t[i] == t[pos..][i - pos];
    }
    SkipCandidate(t, pos + 1, pos + n);
  }

  // ----- Adjacency on positions -----

  predicate OnlySpace(content: Text, a: nat, b: nat)
    requires b <= |content|
  {
    forall k :: a <= k < b ==> IsBlank(content[k].c)
  }

  /** Markers lie in the text, in order, without overlap. */
  ghost predicate InOrder(content: Text, markers: seq<Marker>) {
    && (forall i :: 0 <= i < |markers| ==> markers[i].start <= markers[i].end <= |content|)
    && forall i, j :: 0 <= i < j < |markers| ==> markers[i].end <= markers[j].start
  }

  predicate AdjacentToMarker(content: Text, markers: seq<Marker>, i: nat)
    requires InOrder(content, markers) && i < |markers|
  {
    || (i > 0 && OnlySpace(content, markers[i - 1].end, markers[i].start))
    || (i + 1 < |markers| && OnlySpace(content, markers[i].end, markers[i + 1].start))
  }

  /** The atoms `rest` are what follows position pos, and `markers` are theirs. */
  ghost predicate Tail(content: Text, rest: seq<Atom>, pos: nat, markers: seq<Marker>) {
    pos <= |content| && Render(rest) == content[pos..] && MarkersOf(rest, pos) == markers
  }

  lemma {:induction false} TailPlain(content: Text, rest: seq<Atom>, pos: nat, markers: seq<Marker>)
    requires Tail(content, rest, pos, markers) && rest != [] && rest[0].Plain?
    ensures pos < |content| && rest[0].ch == content[pos] && Tail(content, rest[1..], pos + 1, markers)
  {
    assert Render(rest) == [rest[0].ch] + Render(rest[1..]);
    assert content[pos..][0] == content[pos] && content[pos..][1..] == content[pos + 1..];
  }

  lemma {:induction false} TailMark(content: Text, rest: seq<Atom>, pos: nat, markers: seq<Marker>)
    requires Tail(content, rest, pos, markers) && rest != [] && rest[0].Mark?
    ensures var end := pos + |rest[0].raw|;
      && end <= |content| && rest[0].raw == content[pos..end]
      && markers != [] && markers[0] == Marker(pos, end, rest[0].indices, rest[0].compound)
      && Tail(content, rest[1..], end, markers[1..])
  {
    var n := |rest[0].raw|;
    assert Render(rest) == rest[0].raw + Render(rest[1..]);
    assert content[pos..][..n] == content[pos..pos + n] && content[pos..][n..] == content[pos + n..];
  }

  lemma {:induction false} TailInOrder(content: Text, rest: seq<Atom>, pos: nat, markers: seq<Marker>)
    requires Tail(content, rest, pos, markers)
    ensures InOrder(content, markers)
    ensures markers != [] ==> pos <= markers[0].start
    decreases rest
  {
    if rest != [] {
      if rest[0].Plain? {
        TailPlain(content, rest, pos, markers);
        TailInOrder(content, rest[1..], pos + 1, markers);
      } else {
        TailMark(content, rest, pos, markers);
        var end := pos + |rest[0].raw|;
        TailInOrder(content, rest[1..], end, markers[1..]);
        OrderCons(content, markers);
      }
    }
  }

  lemma {:induction false} OrderCons(content: Text, markers: seq<Marker>)
    requires markers != [] && markers[0].start <= markers[0].end <= |content|
    requires InOrder(content, markers[1..])
    requires markers[1..] != [] ==> markers[0].end <= markers[1..][0].start
    ensures InOrder(content, markers)
  {
    forall i | 0 <= i < |markers| ensures markers[i].start <= markers[i].end <= |content| {
      if i > 0 { assert markers[i] == markers[1..][i - 1]; }
    }
    forall i, j | 0 <= i < j < |markers| ensures markers[i].end <= markers[j].start {
      if i > 0 {
        assert markers[i] == markers[1..][i - 1] && markers[j] == markers[1..][j - 1];
      } else if j > 1 {
        assert markers[1..][0].end <= markers[1..][j - 1].start;
      }
    }
  }

  lemma {:induction false} AheadIsOnlySpace(content: Text, rest: seq<Atom>, pos: nat, markers: seq<Marker>)
    requires Tail(content, rest, pos, markers) && InOrder(content, markers)
    ensures MarkAhead(rest) <==> markers != [] && OnlySpace(content, pos, markers[0].start)
    decreases rest
  {
    if rest != [] {
      if rest[0].Plain? {
        TailPlain(content, rest, pos, markers);
        AheadIsOnlySpace(content, rest[1..], pos + 1, markers);
        TailInOrder(content, rest[1..], pos + 1, markers);
      } else {
        TailMark(content, rest, pos, markers);
      }
    }
  }

  // ----- From one marker to the next -----

  /** One marker of the loop: the marker, whether it abuts another, the atoms after it. */
  datatype Turn = Turn(m: Atom, adjacent: bool, rest: seq<Atom>)

  /** The first marker of a tail, over the plain characters in front of it. */
  function NextTurn(rest: seq<Atom>, near: bool): Option<Turn> {
    if rest == [] then None
    else if rest[0].Plain? then NextTurn(rest[1..], NearAfter(near, rest[0]))
    else Some(Turn(rest[0], near || MarkAhead(rest[1..]), rest[1..]))
  }

  predicate Picked(m: Atom, adjacent: bool, valid: Evidence) {
    m.Mark? && m.compound && m.indices != [] && AllBacked(valid, m.indices) && adjacent
  }

  predicate Backed(m: Atom, adjacent: bool, valid: Evidence) {
    m.Mark? && (!m.compound || adjacent) ==> m.indices != [] && AllBacked(valid, m.indices)
  }

  predicate Counts(m: Atom, adjacent: bool) {
    m.Mark? && (!m.compound || adjacent)
  }

  /** What the first marker of a tail contributes to the expansion and to the guard. */
  lemma {:induction false} TurnMeaning(content: Text, rest: seq<Atom>, pos: nat, markers: seq<Marker>, near: bool, valid: Evidence)
    requires Tail(content, rest, pos, markers)
    ensures NextTurn(rest, near).None? ==>
              && markers == [] && Render(Expanded(rest, near, valid)) == content[pos..]
              && Guarded(rest, near, valid) && !Cited(rest, near)
    ensures NextTurn(rest, near).Some? ==>
              var k := NextTurn(rest, near).value;
              && k.m.Mark? && markers != [] && pos <= markers[0].start <= markers[0].end <= |content|
              && markers[0] == Marker(markers[0].start, markers[0].start + |k.m.raw|, k.m.indices, k.m.compound)
              && k.m.raw == content[markers[0].start..markers[0].end]
              && Tail(content, k.rest, markers[0].end, markers[1..])
              && k.adjacent == ((near && OnlySpace(content, pos, markers[0].start)) || MarkAhead(k.rest))
              && (Guarded(rest, near, valid) <==> Backed(k.m, k.adjacent, valid) && Guarded(k.rest, true, valid))
              && (Cited(rest, near) <==> Counts(k.m, k.adjacent) || Cited(k.rest, true))
    decreases rest
  {
    if rest == [] {
      assert Expanded(rest, near, valid) == [];
    } else if rest[0].Plain? {
      TailPlain(content, rest, pos, markers);
      TurnMeaning(content, rest[1..], pos + 1, markers, NearAfter(near, rest[0]), valid);
      ExpandedUnfold(rest, near, valid);
      RenderCons(rest[0], Expanded(rest[1..], NearAfter(near, rest[0]), valid));
      assert content[pos..] == [content[pos]] + content[pos + 1..];
    } else {
      TailMark(content, rest, pos, markers);
    }
  }

  /** What a picked or kept marker is rendered as. */
  function RenderTurn(k: Turn, valid: Evidence): Text {
    if Picked(k.m, k.adjacent, valid) then Render(Singles(Dedup(k.m.indices))) else RenderAtom(k.m)
  }

  lemma {:induction false} ExpansionOfMark(m: Atom, rest: seq<Atom>, near: bool, valid: Evidence)
    requires m.Mark?
    ensures Render(Expanded([m] + rest, near, valid))
         == RenderTurn(Turn(m, near || MarkAhead(rest), rest), valid) + Render(Expanded(rest, true, valid))
  {
    var a := [m] + rest;
    assert a[1..] == rest;
    ExpandedUnfold(a, near, valid);
    if Cluster(a, near, valid)[0] {
      RenderAppend(Singles(Dedup(m.indices)), Expanded(rest, true, valid));
    } else {
      RenderCons(m, Expanded(rest, true, valid));
    }
  }

  lemma {:induction false} ExpansionOfPlain(a: seq<Atom>, near: bool, valid: Evidence)
    requires a != [] && a[0].Plain?
    ensures Render(Expanded(a, near, valid)) == [a[0].ch] + Render(Expanded(a[1..], NearAfter(near, a[0]), valid))
  {
    ExpandedUnfold(a, near, valid);
    RenderCons(a[0], Expanded(a[1..], NearAfter(near, a[0]), valid));
  }

  lemma {:induction false} TurnExpansion(content: Text, rest: seq<Atom>, pos: nat, markers: seq<Marker>, near: bool, valid: Evidence)
    requires Tail(content, rest, pos, markers) && NextTurn(rest, near).Some?
    requires markers != [] && pos <= markers[0].start <= |content|
    ensures var k := NextTurn(rest, near).value;
      Render(Expanded(rest, near, valid))
      == content[pos..markers[0].start] + (RenderTurn(k, valid) + Render(Expanded(k.rest, true, valid)))
    decreases rest
  {
    if rest[0].Plain? {
      var near' := NearAfter(near, rest[0]);
      TailPlain(content, rest, pos, markers);
      TailInOrder(content, rest[1..], pos + 1, markers);
      TurnExpansion(content, rest[1..], pos + 1, markers, near', valid);
      ExpansionOfPlain(rest, near, valid);
      var k := NextTurn(rest, near).value;
      SliceCons(content, pos, markers[0].start, RenderTurn(k, valid) + Render(Expanded(k.rest, true, valid)));
    } else {
      TailMark(content, rest, pos, markers);
      assert rest == [rest[0]] + rest[1..];
      ExpansionOfMark(rest[0], rest[1..], near, valid);
      assert content[pos..pos] == [];
    }
  }

  lemma {:induction false} SliceCons(content: Text, pos: nat, end: nat, tail: Text)
    requires pos < end <= |content|
    ensures [content[pos]] + (content[pos + 1..end] + tail) == content[pos..end] + tail
  {
  }

  // ----- The loops of the source -----

  /** Before marker i: the atoms left are what follows the previous marker. */
  ghost predicate AtMarker(content: Text, markers: seq<Marker>, i: nat, rest: seq<Atom>, pos: nat) {
    && InOrder(content, markers) && i <= |markers|
    && Tail(content, rest, pos, markers[i..])
    && pos == if i > 0 then markers[i - 1].end else 0
  }

  lemma {:induction false} AtFirstMarker(content: Text, markers: seq<Marker>)
    requires markers == MarkersOf(Scan(NEUTRAL, content), 0)
    ensures AtMarker(content, markers, 0, Scan(NEUTRAL, content), 0)
  {
    RenderScan(NEUTRAL, content);
    assert content[0..] == content && markers[0..] == markers;
    TailInOrder(content, Scan(NEUTRAL, content), 0, markers);
  }

  /** The marker of the loop is the next turn of the atoms, with the same adjacency. */
  lemma {:induction false} MarkerTurn(content: Text, markers: seq<Marker>, i: nat, rest: seq<Atom>, pos: nat, valid: Evidence)
    requires AtMarker(content, markers, i, rest, pos) && i < |markers|
    ensures NextTurn(rest, i > 0).Some?
    ensures var k := NextTurn(rest, i > 0).value;
      && k.m.Mark? && k.m.indices == markers[i].indices && k.m.compound == markers[i].compound
      && k.m.raw == content[markers[i].start..markers[i].end]
      && k.adjacent == AdjacentToMarker(content, markers, i)
      && AtMarker(content, markers, i + 1, k.rest, markers[i].end)
      && (Guarded(rest, i > 0, valid) <==> Backed(k.m, k.adjacent, valid) && Guarded(k.rest, true, valid))
      && (Cited(rest, i > 0) <==> Counts(k.m, k.adjacent) || Cited(k.rest, true))
  {
    TurnMeaning(content, rest, pos, markers[i..], i > 0, valid);
    var k := NextTurn(rest, i > 0).value;
    assert markers[i..][1..] == markers[i + 1..];
    TailInOrder(content, k.rest, markers[i].end, markers[i + 1..]);
    AheadIsOnlySpace(content, k.rest, markers[i].end, markers[i + 1..]);
  }

  lemma {:induction false} NoMoreMarkers(content: Text, markers: seq<Marker>, rest: seq<Atom>, pos: nat, valid: Evidence)
    requires AtMarker(content, markers, |markers|, rest, pos)
    ensures Render(Expanded(rest, |markers| > 0, valid)) == content[pos..]
    ensures Guarded(rest, |markers| > 0, valid) && !Cited(rest, |markers| > 0)
  {
    TurnMeaning(content, rest, pos, markers[|markers|..], |markers| > 0, valid);
  }

  /** What the builder holds before marker i: with the text from `offset` to here still
      to be copied, it is the expansion of everything before. */
  ghost predicate Built(content: Text, b: Text, offset: nat, pos: nat, rest: seq<Atom>, near: bool, valid: Evidence) {
    && offset <= pos <= |content|
    && b + content[offset..pos] + Render(Expanded(rest, near, valid)) == Render(Expanded(Scan(NEUTRAL, content), false, valid))
  }

  lemma {:induction false} BuiltStep(content: Text, markers: seq<Marker>, i: nat, b: Text, offset: nat, pos: nat, rest: seq<Atom>, valid: Evidence)
    requires AtMarker(content, markers, i, rest, pos) && i < |markers|
    requires Built(content, b, offset, pos, rest, i > 0, valid)
    ensures NextTurn(rest, i > 0).Some?
    ensures var k := NextTurn(rest, i > 0).value;
      if Picked(k.m, k.adjacent, valid)
      then offset <= markers[i].start
           && Built(content, b + content[offset..markers[i].start] + Render(Singles(Dedup(k.m.indices))), markers[i].end, markers[i].end, k.rest, true, valid)
      else Built(content, b, offset, markers[i].end, k.rest, true, valid)
  {
    MarkerTurn(content, markers, i, rest, pos, valid);
    TurnPlaces(content, markers, i, rest, pos, valid);
    var k := NextTurn(rest, i > 0).value;
    var start, end := markers[i].start, markers[i].end;
    var tail := Render(Expanded(k.rest, true, valid));
    if Picked(k.m, k.adjacent, valid) {
      Replace(content, b, offset, pos, start, end, Render(Singles(Dedup(k.m.indices))), tail);
    } else {
      Keep(content, b, offset, pos, start, end, tail);
    }
  }

  /** Where the next marker lies, and what the rest of the expansion is made of. */
  lemma {:induction false} TurnPlaces(content: Text, markers: seq<Marker>, i: nat, rest: seq<Atom>, pos: nat, valid: Evidence)
    requires AtMarker(content, markers, i, rest, pos) && i < |markers| && NextTurn(rest, i > 0).Some?
    ensures pos <= markers[i].start <= markers[i].end <= |content|
    ensures var k := NextTurn(rest, i > 0).value;
      Render(Expanded(rest, i > 0, valid))
      == content[pos..markers[i].start] + (RenderTurn(k, valid) + Render(Expanded(k.rest, true, valid)))
  {
    TailInOrder(content, rest, pos, markers[i..]);
    TurnExpansion(content, rest, pos, markers[i..], i > 0, valid);
  }

  lemma {:induction false} Replace(content: Text, b: Text, offset: nat, pos: nat, start: nat, end: nat, x: Text, tail: Text)
    requires offset <= pos <= start <= end <= |content|
    ensures b + content[offset..start] + x + content[end..end] + tail == b + content[offset..pos] + (content[pos..start] + (x + tail))
  {
    Splice(content, b, offset, pos, start, x, tail);
    AppendNothing(b + content[offset..start] + x, content, end);
  }

  lemma {:induction false} Keep(content: Text, b: Text, offset: nat, pos: nat, start: nat, end: nat, tail: Text)
    requires offset <= pos <= start <= end <= |content|
    ensures b + content[offset..end] + tail == b + content[offset..pos] + (content[pos..start] + (content[start..end] + tail))
  {
    Splice(content, b, offset, pos, start, content[start..end], tail);
    JoinSlices(content, offset, start, end);
    ConcatAssoc(b, content[offset..start], content[start..end]);
  }

  lemma {:induction false} JoinSlices(content: Text, a: nat, m: nat, z: nat)
    requires a <= m <= z <= |content|
    ensures content[a..z] == content[a..m] + content[m..z]
  {
  }

  lemma {:induction false} AppendNothing(b: Text, content: Text, end: nat)
    requires end <= |content|
    ensures b + content[end..end] == b
  {
  }

  lemma {:induction false} Splice(content: Text, b: Text, offset: nat, pos: nat, start: nat, x: Text, tail: Text)
    requires offset <= pos <= start <= |content|
    ensures b + content[offset..pos] + (content[pos..start] + (x + tail)) == b + content[offset..start] + x + tail
  {
    JoinSlices(content, offset, pos, start);
    ConcatAssoc(b, content[offset..pos], content[pos..start]);
    ConcatAssoc(b + content[offset..pos], content[pos..start], x);
    ConcatAssoc(b + content[offset..pos] + content[pos..start], x, tail);
    ConcatAssoc(b + content[offset..pos], content[pos..start], x + tail);
  }

  /** The final size check subsumes the one after each group: the builder only grows. */
  lemma {:induction false} BuiltBound(content: Text, b: Text, offset: nat, pos: nat, rest: seq<Atom>, near: bool, valid: Evidence)
    requires Built(content, b, offset, pos, rest, near, valid)
    ensures ByteLen(Chars(b)) <= ByteLen(Chars(Render(Expanded(Scan(NEUTRAL, content), false, valid))))
  {
    var tail := Render(Expanded(rest, near, valid));
    ConcatAssoc(b, content[offset..pos], tail);
    PrefixBytes(b, content[offset..pos] + tail);
  }

  lemma {:induction false} PrefixBytes(b: Text, tail: Text)
    ensures ByteLen(Chars(b)) <= ByteLen(Chars(b + tail))
  {
    assert Chars(b + tail) == Chars(b) + Chars(tail);
    ByteLenAppend(Chars(b), Chars(tail));
  }

  method WriteSingles(indices: seq<nat>) returns (text: Text)
    ensures text == Render(Singles(Dedup(indices)))
  {
    hide Render, Singles, Dedup;
    text := [];
    NothingWritten();
    var seen: set<nat> := {};
    for i := 0 to |indices|
      invariant seen == set n | n in indices[..i]
      invariant text == Render(Singles(Dedup(indices[..i])))
    {
      var n := indices[i];
      TakeNext(indices, i);
      DedupNext(indices[..i], n);
      if n !in seen {
        AppendSingle(Dedup(indices[..i]), n);
        text := text + Unprotected("[" + Itoa(n) + "]");
        seen := seen + {n};
      }
    }
    assert indices[..|indices|] == indices;
  }

  lemma {:induction false} NothingWritten()
    ensures Render(Singles(Dedup([]))) == []
  {
  }

  lemma {:induction false} DedupNext(ns: seq<nat>, n: nat)
    ensures Dedup(ns + [n]) == if n in ns then Dedup(ns) else Dedup(ns) + [n]
  {
    assert (ns + [n])[..|ns|] == ns;
  }

  lemma {:induction false} AppendSingle(ns: seq<nat>, n: nat)
    ensures Render(Singles(ns + [n])) == Render(Singles(ns)) + Unprotected("[" + Itoa(n) + "]")
  {
    assert Singles(ns + [n]) == Singles(ns) + [Single(n)];
    RenderAppend(Singles(ns), [Single(n)]);
    RenderCons(Single(n), []);
    assert [Single(n)] + [] == [Single(n)];
  }

  lemma {:induction false} BuiltAll(content: Text, markers: seq<Marker>, b: Text, offset: nat, pos: nat, rest: seq<Atom>, valid: Evidence)
    requires AtMarker(content, markers, |markers|, rest, pos)
    requires Built(content, b, offset, pos, rest, |markers| > 0, valid)
    ensures b + content[offset..] == Render(Expanded(Scan(NEUTRAL, content), false, valid))
  {
    NoMoreMarkers(content, markers, rest, pos, valid);
    JoinSlices(content, offset, pos, |content|);
    assert content[offset..|content|] == content[offset..] && content[pos..|content|] == content[pos..];
    ConcatAssoc(b, content[offset..pos], content[pos..]);
  }

  /** One turn of the loop: the group is expanded into the builder, or left for the copy. */
  method ExpandOne(content: Text, markers: seq<Marker>, i: nat, b: Text, offset: nat, valid: Evidence, ghost rest: seq<Atom>, ghost pos: nat)
    returns (b': Text, offset': nat)
    requires AtMarker(content, markers, i, rest, pos) && i < |markers|
    requires Built(content, b, offset, pos, rest, i > 0, valid)
    ensures NextTurn(rest, i > 0).Some?
    ensures AtMarker(content, markers, i + 1, NextTurn(rest, i > 0).value.rest, markers[i].end)
    ensures Built(content, b', offset', markers[i].end, NextTurn(rest, i > 0).value.rest, true, valid)
  {
    var m := markers[i];
    MarkerTurn(content, markers, i, rest, pos, valid);
    BuiltStep(content, markers, i, b, offset, pos, rest, valid);
    if !m.compound || m.indices == [] || !AllBacked(valid, m.indices) || !AdjacentToMarker(content, markers, i) {
      return b, offset;
    }
    var singles := WriteSingles(m.indices);
    return b + content[offset..m.start] + singles, m.end;
  }

  /** CanonicalizeAdjacent. */
  method CanonicalizeAdjacent(content: Text, valid: Evidence) returns (out: Text)
    ensures out == CanonicalizeAdjacentSpec(content, valid)
  {
    var markers := ScanMarkers(content);
    AtFirstMarker(content, markers);
    var b: Text := [];
    var offset: nat := 0;
    ghost var rest, pos: nat := Scan(NEUTRAL, content), 0;
    assert content[0..0] == [];
    for i := 0 to |markers|
      invariant AtMarker(content, markers, i, rest, pos)
      invariant Built(content, b, offset, pos, rest, i > 0, valid)
    {
      b, offset := ExpandOne(content, markers, i, b, offset, valid, rest, pos);
      rest, pos := NextTurn(rest, i > 0).value.rest, markers[i].end;
      if ByteLen(Chars(b)) > ByteLen(Chars(content)) + MAX_EXPANSION_BYTES {
        BuiltBound(content, b, offset, pos, rest, true, valid);
        return content;
      }
    }
    BuiltAll(content, markers, b, offset, pos, rest, valid);
    b := b + content[offset..];
    if ByteLen(Chars(b)) > ByteLen(Chars(content)) + MAX_EXPANSION_BYTES {
      return content;
    }
    return b;
  }

  /** ValidAdjacent. */
  method ValidAdjacent(content: Text, valid: Evidence, requireMarker: bool) returns (ok: bool)
    ensures ok == ValidAdjacentSpec(content, valid, requireMarker)
  {
    var markers := ScanMarkers(content);
    AtFirstMarker(content, markers);
    var hasCitation := false;
    ghost var all := Scan(NEUTRAL, content);
    ghost var rest, pos: nat := all, 0;
    for i := 0 to |markers|
      invariant AtMarker(content, markers, i, rest, pos)
      invariant Guarded(all, false, valid) <==> Guarded(rest, i > 0, valid)
      invariant Cited(all, false) <==> hasCitation || Cited(rest, i > 0)
    {
      var m := markers[i];
      MarkerTurn(content, markers, i, rest, pos, valid);
      rest, pos := NextTurn(rest, i > 0).value.rest, m.end;
      if m.compound && !AdjacentToMarker(content, markers, i) {
        continue;
      }
      if m.indices == [] || !AllBacked(valid, m.indices) {
        return false;
      }
      hasCitation := true;
    }
    NoMoreMarkers(content, markers, rest, pos, valid);
    return !requireMarker || hasCitation;
  }
}
