/** The citation functions on strings (citationtext/citation.go and valid_adjacent.go): what
    their results are worth when they are read again. */
module CitationString {
  import opened GoText
  import opened Markdown
  import opened Citation
  import opened CitationCluster
  import opened CitationStrict
  import opened CitationRewrite
  import opened CitationHidden

  /** The expanded text as it was cut, and as it reads. */
  function Carried(lower: CaseMap, s: string, pick: seq<bool>): Text
    requires |pick| == |Cut(lower, s)|
  {
    Render(ExpandBy(Cut(lower, s), pick))
  }

  function Reread(lower: CaseMap, s: string, pick: seq<bool>): Text
    requires |pick| == |Cut(lower, s)|
  {
    Rewrite(lower, Definitions(lower, s), [], Cut(lower, s), pick)
  }

  /** The expansion is larger than the growth bound allows. */
  predicate Overgrown(lower: CaseMap, s: string, pick: seq<bool>)
    requires |pick| == |Cut(lower, s)|
  {
    ByteLen(Chars(Carried(lower, s, pick))) > ByteLen(s) + MAX_EXPANSION_BYTES
  }

  /** No reference definition has a number as its label. */
  ghost predicate NumberFree(lower: CaseMap, s: string) {
    forall n: nat :: Lower(lower, Itoa(n)) !in Definitions(lower, s)
  }

  // ----- The adjacent functions -----

  function CanonicalizeAdjacentOf(lower: CaseMap, s: string, valid: Evidence): string {
    Chars(CanonicalizeAdjacentSpec(Masked(lower, s), valid))
  }

  predicate ValidAdjacentOf(lower: CaseMap, s: string, valid: Evidence, requireMarker: bool) {
    ValidAdjacentSpec(Masked(lower, s), valid, requireMarker)
  }

  function AdjacentPick(lower: CaseMap, s: string, valid: Evidence): (pick: seq<bool>)
    ensures |pick| == |Cut(lower, s)|
  {
    Cluster(Cut(lower, s), false, valid)
  }

  /** No index that CanonicalizeAdjacent writes is the label of a reference definition. */
  ghost predicate NoLabelWritten(lower: CaseMap, s: string, valid: Evidence) {
    NoneDefined(lower, s, Cut(lower, s), AdjacentPick(lower, s, valid))
  }

  /** A single marker of the expansion is out of reach of every written marker that is the
      label of a reference definition; or nothing is written. */
  predicate CitationLeft(lower: CaseMap, s: string, valid: Evidence) {
    var pick := AdjacentPick(lower, s, valid);
    Overgrown(lower, s, pick) || SomeLeft(Expanded(Cut(lower, s), false, valid), Reread(lower, s, pick), SINGLE)
  }

  /** What CanonicalizeAdjacent gives, and how it reads. */
  lemma {:induction false} AdjacentReads(lower: CaseMap, s: string, valid: Evidence)
    ensures var pick, e, out := AdjacentPick(lower, s, valid), Expanded(Cut(lower, s), false, valid), CanonicalizeAdjacentOf(lower, s, valid);
      && Definitions(lower, out) == Definitions(lower, s)
      && (if Overgrown(lower, s, pick) then out == s
          else && out == Chars(Reread(lower, s, pick)) && Masked(lower, out) == Reread(lower, s, pick)
               && Hides(Carried(lower, s, pick), Reread(lower, s, pick)) && Scan(NEUTRAL, Carried(lower, s, pick)) == e)
      && (NoLabelWritten(lower, s, valid) ==> Reread(lower, s, pick) == Carried(lower, s, pick))
  {
    hide Masked, Definitions, Rewrite, ExpandBy, Cluster, Hides, Render, Scan;
    MaskedChars(lower, s);
    ClusterExpandable(Cut(lower, s), false, valid);
    ExpansionProtection(lower, s, AdjacentPick(lower, s, valid));
    HidesChars(Carried(lower, s, AdjacentPick(lower, s, valid)), Reread(lower, s, AdjacentPick(lower, s, valid)));
    CutOfExpansion(Masked(lower, s), valid);
  }

  /** A prepared draft passes the guard again after expansion, but for one thing: if a
      citation is demanded, it does exactly if some single marker is left that no written
      marker with a defined label protects. */
  lemma {:induction false} PreparedDraftStaysValidIff(lower: CaseMap, s: string, valid: Evidence, requireMarker: bool)
    requires ValidAdjacentOf(lower, s, valid, requireMarker)
    ensures ValidAdjacentOf(lower, CanonicalizeAdjacentOf(lower, s, valid), valid, requireMarker)
       <==> (requireMarker ==> CitationLeft(lower, s, valid))
  {
    hide Masked, Definitions, Expanded, Hides, Scan, Guarded, Cited, SomeLeft, Reread, Carried, Overgrown, CanonicalizeAdjacentOf;
    var pick, a := AdjacentPick(lower, s, valid), Cut(lower, s);
    AdjacentReads(lower, s, valid);
    if !Overgrown(lower, s, pick) {
      ExpansionStaysGuarded(a, false, valid);
      ClustersFullyExpanded(a, false, valid);
      HiddenAdjacent(NEUTRAL, Carried(lower, s, pick), Reread(lower, s, pick), false, false, valid);
    }
  }

  /** A citation is left whenever no written marker is the label of a definition. */
  lemma {:induction false} NoLabelLeavesCitation(lower: CaseMap, s: string, valid: Evidence)
    requires ValidAdjacentOf(lower, s, valid, true) && NoLabelWritten(lower, s, valid)
    ensures CitationLeft(lower, s, valid)
  {
    hide Masked, Definitions, Expanded, Hides, Scan, Guarded, Cited, SomeLeft, Reread, Carried, Overgrown, CanonicalizeAdjacentOf;
    var pick, a := AdjacentPick(lower, s, valid), Cut(lower, s);
    AdjacentReads(lower, s, valid);
    if !Overgrown(lower, s, pick) {
      ExpansionStaysGuarded(a, false, valid);
      ClustersFullyExpanded(a, false, valid);
      HiddenAdjacent(NEUTRAL, Carried(lower, s, pick), Reread(lower, s, pick), false, false, valid);
    }
  }

  lemma {:induction false} NumberFreeSuffices(lower: CaseMap, s: string, valid: Evidence)
    requires NumberFree(lower, s)
    ensures NoLabelWritten(lower, s, valid)
  {
  }

  /** Rewriting never adds or removes a definition. */
  lemma {:induction false} CanonicalizeKeepsDefinitions(lower: CaseMap, s: string, valid: Evidence)
    ensures Definitions(lower, CanonicalizeAdjacentOf(lower, s, valid)) == Definitions(lower, s)
  {
    AdjacentReads(lower, s, valid);
  }

  /** Unless the growth bound stops it, the expansion of a valid text leaves no compound
      group inside a cluster. */
  lemma {:induction false} NoCompoundLeft(lower: CaseMap, s: string, valid: Evidence)
    requires ValidAdjacentOf(lower, s, valid, false)
    ensures || NoCompoundInCluster(Cut(lower, CanonicalizeAdjacentOf(lower, s, valid)), false)
            || (CanonicalizeAdjacentOf(lower, s, valid) == s && Overgrown(lower, s, AdjacentPick(lower, s, valid)))
  {
    hide Masked, Definitions, Expanded, Hides, Scan, NoCompoundInCluster, Reread, Carried, Overgrown, CanonicalizeAdjacentOf;
    var pick := AdjacentPick(lower, s, valid);
    AdjacentReads(lower, s, valid);
    if !Overgrown(lower, s, pick) {
      ClustersFullyExpanded(Cut(lower, s), false, valid);
      HiddenAdjacent(NEUTRAL, Carried(lower, s, pick), Reread(lower, s, pick), false, false, valid);
    }
  }

  /** A text without anything to expand is canonical. */
  lemma {:induction false} IdleIsCanonical(lower: CaseMap, s: string, valid: Evidence)
    requires Idle(Cut(lower, s), false, valid)
    ensures CanonicalizeAdjacentOf(lower, s, valid) == s
  {
    hide Masked, Expanded, Idle;
    MaskedChars(lower, s);
    IdleIsExpanded(Cut(lower, s), false, valid);
    RenderScan(NEUTRAL, Masked(lower, s));
  }

  lemma {:induction false} CanonicalizeAdjacentIdempotent(lower: CaseMap, s: string, valid: Evidence)
    ensures var out := CanonicalizeAdjacentOf(lower, s, valid); CanonicalizeAdjacentOf(lower, out, valid) == out
  {
    hide Masked, Definitions, Expanded, Hides, Scan, Idle, Reread, Carried, Overgrown, CanonicalizeAdjacentOf;
    var pick, out := AdjacentPick(lower, s, valid), CanonicalizeAdjacentOf(lower, s, valid);
    AdjacentReads(lower, s, valid);
    if !Overgrown(lower, s, pick) {
      ExpandedIsIdle(Cut(lower, s), false, valid);
      HiddenAdjacent(NEUTRAL, Carried(lower, s, pick), Reread(lower, s, pick), false, false, valid);
      IdleIsCanonical(lower, out, valid);
    }
  }

  // ----- The strict functions -----

  function CanonicalizeOf(lower: CaseMap, s: string, valid: Evidence, maxIndex: int): Option<string> {
    match CanonicalizeSpec(Masked(lower, s), valid, maxIndex)
    case None => None
    case Some(t) => Some(Chars(t))
  }

  predicate ValidOf(lower: CaseMap, s: string, valid: Evidence, maxIndex: int, requireMarker: bool) {
    ValidSpec(Masked(lower, s), valid, maxIndex, requireMarker)
  }

  function StrictPickOf(lower: CaseMap, s: string, maxIndex: int): (pick: seq<bool>)
    ensures |pick| == |Cut(lower, s)|
  {
    StrictPick(Cut(lower, s), maxIndex)
  }

  ghost predicate NoStrictLabelWritten(lower: CaseMap, s: string, maxIndex: int) {
    NoneDefined(lower, s, Cut(lower, s), StrictPickOf(lower, s, maxIndex))
  }

  /** A marker inside the evidence window is out of reach of every written marker that is the
      label of a reference definition. */
  predicate EvidenceLeft(lower: CaseMap, s: string, maxIndex: int) {
    SomeLeft(StrictExpanded(Cut(lower, s), maxIndex), Reread(lower, s, StrictPickOf(lower, s, maxIndex)), InWindow(maxIndex))
  }

  /** What Canonicalize gives, and how it reads. */
  lemma {:induction false} StrictReads(lower: CaseMap, s: string, valid: Evidence, maxIndex: int)
    requires CanonicalizeOf(lower, s, valid, maxIndex).Some?
    ensures var pick, out := StrictPickOf(lower, s, maxIndex), CanonicalizeOf(lower, s, valid, maxIndex).value;
      && AllResolved(Cut(lower, s), valid, maxIndex)
      && Masked(lower, out) == Reread(lower, s, pick)
      && Hides(Carried(lower, s, pick), Reread(lower, s, pick))
      && Scan(NEUTRAL, Carried(lower, s, pick)) == StrictExpanded(Cut(lower, s), maxIndex)
      && (NoStrictLabelWritten(lower, s, maxIndex) ==> Reread(lower, s, pick) == Carried(lower, s, pick))
  {
    hide Masked, Definitions, Rewrite, ExpandBy, StrictPick, Hides, Render, Scan, AllResolved;
    var a, pick := Cut(lower, s), StrictPickOf(lower, s, maxIndex);
    MaskedChars(lower, s);
    StrictExpandable(a, maxIndex);
    ExpansionProtection(lower, s, pick);
    RenderScan(NEUTRAL, Masked(lower, s));
    Rescan(NEUTRAL, a, pick);
  }

  lemma {:induction false} OutsideIsCanonical(lower: CaseMap, s: string, valid: Evidence, maxIndex: int)
    requires GroupsOutside(Cut(lower, s), maxIndex)
    ensures CanonicalizeOf(lower, s, valid, maxIndex) == Some(s)
  {
    hide Masked, StrictExpanded, GroupsOutside, AllResolved;
    MaskedChars(lower, s);
    OutsideIsExpanded(Cut(lower, s), valid, maxIndex);
    RenderScan(NEUTRAL, Masked(lower, s));
  }

  /** Canonicalize is all or nothing: a success is its own canonical form and leaves no group
      inside the window. What was valid stays valid, but for one thing: if evidence is
      demanded, it does exactly if some marker inside the window is left that no written
      marker with a defined label protects. */
  lemma {:induction false} CanonicalizeIsAtomic(lower: CaseMap, s: string, valid: Evidence, maxIndex: int, requireMarker: bool)
    requires CanonicalizeOf(lower, s, valid, maxIndex).Some?
    ensures var out := CanonicalizeOf(lower, s, valid, maxIndex).value;
      && CanonicalizeOf(lower, out, valid, maxIndex) == Some(out)
      && GroupsOutside(Cut(lower, out), maxIndex)
      && (ValidOf(lower, s, valid, maxIndex, requireMarker) ==>
            (ValidOf(lower, out, valid, maxIndex, requireMarker) <==> (requireMarker ==> EvidenceLeft(lower, s, maxIndex))))
  {
    hide Masked, Definitions, Hides, Scan, StrictlyBacked, HasEvidence, GroupsOutside, SomeLeft, Reread, Carried, StrictExpanded, AllResolved, CanonicalizeOf;
    var out, pick := CanonicalizeOf(lower, s, valid, maxIndex).value, StrictPickOf(lower, s, maxIndex);
    StrictReads(lower, s, valid, maxIndex);
    StrictOnce(Cut(lower, s), valid, maxIndex);
    OutsideGroups(StrictExpanded(Cut(lower, s), maxIndex), maxIndex);
    HiddenStrict(NEUTRAL, Carried(lower, s, pick), Reread(lower, s, pick), valid, maxIndex);
    OutsideIsCanonical(lower, out, valid, maxIndex);
  }

  lemma {:induction false} OutsideGroups(a: seq<Atom>, maxIndex: int)
    requires forall i :: 0 <= i < |a| && a[i].Mark? && a[i].compound ==> OutsideWindow(a[i], maxIndex)
    ensures GroupsOutside(a, maxIndex)
  {
  }

  /** And it agrees with Valid in both directions if no written marker is the label of a
      definition. */
  lemma {:induction false} CanonicalizeAgreesWithValid(lower: CaseMap, s: string, valid: Evidence, maxIndex: int, requireMarker: bool)
    requires CanonicalizeOf(lower, s, valid, maxIndex).Some? && NoStrictLabelWritten(lower, s, maxIndex)
    ensures ValidOf(lower, CanonicalizeOf(lower, s, valid, maxIndex).value, valid, maxIndex, requireMarker)
       <==> ValidOf(lower, s, valid, maxIndex, requireMarker)
  {
    hide Masked, Definitions, Hides, Scan, StrictlyBacked, HasEvidence, Reread, Carried, StrictExpanded, AllResolved, CanonicalizeOf;
    StrictReads(lower, s, valid, maxIndex);
    StrictOnce(Cut(lower, s), valid, maxIndex);
  }
}
