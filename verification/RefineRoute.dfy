/** The container-stripping pass of refine routing (agent/refine_route.go): a container
    word is removed exactly where it modifies an artifact noun. */
module RefineRoute {
  import opened GoText

  const DE := "\U{7684}"

  /** The word lists; `containers` is ordered longest first by the source. */
  datatype Vocabulary = Vocabulary(containers: seq<string>, nouns: seq<string>)

  predicate Words(v: Vocabulary) {
    && (forall k :: 0 <= k < |v.containers| ==> v.containers[k] != "")
    && (forall k :: 0 <= k < |v.nouns| ==> v.nouns[k] != "")
  }

  predicate At(s: string, i: nat, word: string) {
    i + |word| <= |s| && s[i..i + |word|] == word
  }

  predicate NounAt(v: Vocabulary, s: string, i: nat) {
    exists k :: 0 <= k < |v.nouns| && At(s, i, v.nouns[k])
  }

  // ----- What the rule means: chains of containers and particles -----

  predicate ChainWord(v: Vocabulary, w: string) {
    w == DE || w in v.containers
  }

  /** The chain's words follow each other from i, and an artifact noun follows them. */
  predicate ChainAt(v: Vocabulary, s: string, i: nat, chain: seq<string>)
    decreases |chain|
  {
    if chain == [] then NounAt(v, s, i)
    else ChainWord(v, chain[0]) && At(s, i, chain[0]) && ChainAt(v, s, i + |chain[0]|, chain[1..])
  }

  ghost predicate Modifies(v: Vocabulary, s: string, i: nat) {
    exists chain :: ChainAt(v, s, i, chain)
  }

  // ----- The tables -----

  predicate LeadsAt(v: Vocabulary, s: string, i: nat)
    requires Words(v)
    decreases |s| - i
  {
    i < |s| &&
    (|| NounAt(v, s, i)
     || (At(s, i, DE) && LeadsAt(v, s, i + |DE|))
     || exists k :: 0 <= k < |v.containers| && LeadsThrough(v, s, i, k))
  }

  /** The k-th container stands at i and a chain goes on after it. */
  predicate LeadsThrough(v: Vocabulary, s: string, i: nat, k: nat)
    requires Words(v) && k < |v.containers| && i < |s|
    decreases |s| - i, 0
  {
    At(s, i, v.containers[k]) && LeadsAt(v, s, i + |v.containers[k]|)
  }

  /** The table is true at i exactly when some chain of containers and particles from i
      ends in an artifact noun. */
  lemma {:induction false} LeadsIffModifies(v: Vocabulary, s: string, i: nat)
    requires Words(v)
    ensures LeadsAt(v, s, i) <==> Modifies(v, s, i)
    decreases |s| - i
  {
    if LeadsAt(v, s, i) {
      LeadsByParts(v, s, i);
      if NounAt(v, s, i) {
        assert ChainAt(v, s, i, []);
      } else if At(s, i, DE) && LeadsAt(v, s, i + |DE|) {
        LeadsIffModifies(v, s, i + |DE|);
        ChainCons(v, s, i, DE);
      } else {
        var k := FirstLeading(v, s, i, 0);
        LeadsIffModifies(v, s, i + |v.containers[k]|);
        ChainCons(v, s, i, v.containers[k]);
      }
    }
    if chain :| ChainAt(v, s, i, chain) {
      ChainLeads(v, s, i, chain);
    }
  }

  lemma {:induction false} ChainCons(v: Vocabulary, s: string, i: nat, w: string)
    requires ChainWord(v, w) && At(s, i, w) && Modifies(v, s, i + |w|)
    ensures Modifies(v, s, i)
  {
    var chain :| ChainAt(v, s, i + |w|, chain);
    assert ([w] + chain)[1..] == chain;
    assert ChainAt(v, s, i, [w] + chain);
  }

  lemma {:induction false} ChainLeads(v: Vocabulary, s: string, i: nat, chain: seq<string>)
    requires Words(v) && ChainAt(v, s, i, chain)
    ensures LeadsAt(v, s, i)
    decreases |chain|
  {
    if chain != [] {
      var w := chain[0];
      ChainLeads(v, s, i + |w|, chain[1..]);
      if w != DE {
        var k :| 0 <= k < |v.containers| && v.containers[k] == w;
        assert LeadsThrough(v, s, i, k);
      }
    }
  }

  /** The first container, from k on, that stands at i. */
  function FirstMatch(v: Vocabulary, s: string, i: nat, k: nat): nat
    requires k <= |v.containers|
    decreases |v.containers| - k
  {
    if k == |v.containers| then k else if At(s, i, v.containers[k]) then k else FirstMatch(v, s, i, k + 1)
  }

  /** The first container, from k on, that stands at i and leads on to a noun. */
  function FirstLeading(v: Vocabulary, s: string, i: nat, k: nat): (r: nat)
    requires Words(v) && k <= |v.containers| && i < |s|
    ensures k <= r <= |v.containers|
    ensures r < |v.containers| ==> LeadsThrough(v, s, i, r)
    ensures forall q :: k <= q < r ==> !LeadsThrough(v, s, i, q)
    decreases |v.containers| - k
  {
    if k == |v.containers| then k else if LeadsThrough(v, s, i, k) then k else FirstLeading(v, s, i, k + 1)
  }

  predicate DropAt(v: Vocabulary, s: string, i: nat)
    requires Words(v)
  {
    i < |s| && FirstLeading(v, s, i, 0) < |v.containers|
  }

  function MatchLen(v: Vocabulary, s: string, i: nat): (n: nat)
    requires Words(v)
  {
    if DropAt(v, s, i) then |v.containers[FirstLeading(v, s, i, 0)]|
    else
      var k := FirstMatch(v, s, i, 0);
      if i < |s| && k < |v.containers| then |v.containers[k]| else 0
  }

  lemma {:induction false} FirstMatchStands(v: Vocabulary, s: string, i: nat, k: nat)
    requires k <= |v.containers|
    ensures k <= FirstMatch(v, s, i, k) <= |v.containers|
    ensures FirstMatch(v, s, i, k) < |v.containers| ==> At(s, i, v.containers[FirstMatch(v, s, i, k)])
    ensures forall q :: k <= q < FirstMatch(v, s, i, k) ==> !At(s, i, v.containers[q])
    decreases |v.containers| - k
  {
    if k < |v.containers| {
      FirstMatchStands(v, s, i, k + 1);
    }
  }

  lemma {:induction false} MatchFits(v: Vocabulary, s: string, i: nat)
    requires Words(v)
    ensures i + MatchLen(v, s, i) <= |s| || MatchLen(v, s, i) == 0
    ensures MatchLen(v, s, i) > 0 ==> s[i..i + MatchLen(v, s, i)] in v.containers
    ensures MatchLen(v, s, i) == 0 && i < |s| ==> forall k :: 0 <= k < |v.containers| ==> !At(s, i, v.containers[k])
  {
    FirstMatchStands(v, s, i, 0);
  }

  // ----- The emit walk -----

  datatype Piece = Kept(text: string) | Dropped(text: string)

  /** How far the walk steps at i. */
  function Width(v: Vocabulary, s: string, i: nat): (n: nat)
    requires Words(v) && i < |s|
    ensures n >= 1 && i + n <= |s|
  {
    MatchFits(v, s, i);
    if MatchLen(v, s, i) == 0 then 1 else MatchLen(v, s, i)
  }

  function PieceAt(v: Vocabulary, s: string, i: nat): Piece
    requires Words(v) && i < |s|
  {
    if DropAt(v, s, i) then Dropped(s[i..i + Width(v, s, i)]) else Kept(s[i..i + Width(v, s, i)])
  }

  function Walk(v: Vocabulary, s: string, i: nat): seq<Piece>
    requires Words(v) && i <= |s|
    decreases |s| - i
  {
    if i == |s| then [] else [PieceAt(v, s, i)] + Walk(v, s, i + Width(v, s, i))
  }

  function KeptText(pieces: seq<Piece>): string {
    if pieces == [] then "" else (if pieces[0].Kept? then pieces[0].text else "") + KeptText(pieces[1..])
  }

  function AllText(pieces: seq<Piece>): string {
    if pieces == [] then "" else pieces[0].text + AllText(pieces[1..])
  }

  lemma {:induction false} TextCons(p: Piece, rest: seq<Piece>)
    ensures KeptText([p] + rest) == (if p.Kept? then p.text else "") + KeptText(rest)
    ensures AllText([p] + rest) == p.text + AllText(rest)
  {
    assert ([p] + rest)[1..] == rest;
  }

  lemma {:induction false} CutString(s: string, i: nat, n: nat)
    requires i + n <= |s|
    ensures s[i..] == s[i..i + n] + s[i + n..]
  {
  }

  /** Nothing is reordered or invented: the pieces, dropped ones included, are the input. */
  lemma {:induction false} WalkCoversInput(v: Vocabulary, s: string, i: nat)
    requires Words(v) && i <= |s|
    ensures AllText(Walk(v, s, i)) == s[i..]
    decreases |s| - i
  {
    if i < |s| {
      var n := Width(v, s, i);
      WalkCoversInput(v, s, i + n);
      TextCons(PieceAt(v, s, i), Walk(v, s, i + n));
      CutString(s, i, n);
    }
  }

  /** A container at i from which a chain goes on to an artifact noun. */
  ghost predicate Modifier(v: Vocabulary, s: string, i: nat, c: string) {
    c in v.containers && At(s, i, c) && Modifies(v, s, i + |c|)
  }

  lemma {:induction false} ModifierDrops(v: Vocabulary, s: string, i: nat, c: string)
    requires Words(v) && i < |s| && Modifier(v, s, i, c)
    ensures DropAt(v, s, i)
  {
    var k :| 0 <= k < |v.containers| && v.containers[k] == c;
    LeadsIffModifies(v, s, i + |c|);
    assert LeadsThrough(v, s, i, k);
  }

  lemma {:induction false} DropIffModifier(v: Vocabulary, s: string, i: nat)
    requires Words(v) && i < |s|
    ensures DropAt(v, s, i) <==> exists c :: Modifier(v, s, i, c)
    ensures DropAt(v, s, i) ==> Modifier(v, s, i, s[i..i + Width(v, s, i)])
  {
    var f := FirstLeading(v, s, i, 0);
    if DropAt(v, s, i) {
      LeadsIffModifies(v, s, i + |v.containers[f]|);
      assert Modifier(v, s, i, v.containers[f]);
    }
    forall c | Modifier(v, s, i, c) ensures DropAt(v, s, i) { ModifierDrops(v, s, i, c); }
  }

  /** What the walk does where it stands: it drops a container exactly when a chain from
      a container there reaches an artifact noun; a container it keeps is kept whole; any
      other character is kept alone. */
  lemma {:induction false} WalkMeaning(v: Vocabulary, s: string, i: nat)
    requires Words(v) && i < |s|
    ensures PieceAt(v, s, i).Dropped? <==> exists c :: Modifier(v, s, i, c)
    ensures PieceAt(v, s, i).Dropped? ==> Modifier(v, s, i, PieceAt(v, s, i).text)
    ensures PieceAt(v, s, i).Kept? ==>
              || PieceAt(v, s, i).text in v.containers
              || (|PieceAt(v, s, i).text| == 1 && forall k :: 0 <= k < |v.containers| ==> !At(s, i, v.containers[k]))
  {
    DropIffModifier(v, s, i);
    MatchFits(v, s, i);
  }

  lemma {:induction false} NoNounNoLead(v: Vocabulary, s: string, i: nat)
    requires Words(v) && forall k: nat :: k < |s| ==> !NounAt(v, s, k)
    ensures !LeadsAt(v, s, i)
    decreases |s| - i
  {
    if i < |s| {
      if At(s, i, DE) { NoNounNoLead(v, s, i + |DE|); }
      forall k | 0 <= k < |v.containers| ensures !LeadsThrough(v, s, i, k) {
        if At(s, i, v.containers[k]) { NoNounNoLead(v, s, i + |v.containers[k]|); }
      }
    }
  }

  /** Without an artifact noun the pass is the identity. */
  lemma {:induction false} IdentityWithoutNouns(v: Vocabulary, s: string, i: nat)
    requires Words(v) && i <= |s| && forall k: nat :: k < |s| ==> !NounAt(v, s, k)
    ensures KeptText(Walk(v, s, i)) == s[i..]
    decreases |s| - i
  {
    hide MatchLen, DropAt, NounAt;
    if i < |s| {
      var n := Width(v, s, i);
      NoDropWithoutNouns(v, s, i);
      IdentityWithoutNouns(v, s, i + n);
      TextCons(PieceAt(v, s, i), Walk(v, s, i + n));
      CutString(s, i, n);
    }
  }

  lemma {:induction false} NoDropWithoutNouns(v: Vocabulary, s: string, i: nat)
    requires Words(v) && i < |s| && forall k: nat :: k < |s| ==> !NounAt(v, s, k)
    ensures !DropAt(v, s, i)
  {
    var f := FirstLeading(v, s, i, 0);
    if f < |v.containers| {
      NoNounNoLead(v, s, i + |v.containers[f]|);
    }
  }

  // ----- The loops of the source -----

  /** The tables agree with their meaning from i on. */
  ghost predicate Filled(v: Vocabulary, s: string, leads: array<bool>, matchLen: array<nat>, dropAt: array<bool>, i: nat)
    requires Words(v)
    reads leads, matchLen, dropAt
  {
    && leads.Length == matchLen.Length == dropAt.Length == |s| + 1
    && (forall k: nat :: i <= k <= |s| ==> leads[k] == LeadsAt(v, s, k))
    && (forall k: nat :: i <= k <= |s| ==> matchLen[k] == MatchLen(v, s, k) && dropAt[k] == DropAt(v, s, k))
  }

  /** The containers at one position: the match length, and whether it leads to a noun. */
  method MatchContainers(v: Vocabulary, s: string, i: nat, leads: array<bool>) returns (n: nat, drop: bool)
    requires Words(v) && i < |s| && leads.Length == |s| + 1
    requires forall k: nat :: i < k <= |s| ==> leads[k] == LeadsAt(v, s, k)
    ensures n == MatchLen(v, s, i) && drop == DropAt(v, s, i)
  {
    n, drop := 0, false;
    var k := 0;
    while k < |v.containers|
      invariant 0 <= k <= |v.containers|
      invariant FirstLeading(v, s, i, 0) == FirstLeading(v, s, i, k)
      invariant if n == 0 then FirstMatch(v, s, i, 0) == FirstMatch(v, s, i, k)
                else FirstMatch(v, s, i, 0) < |v.containers| && n == |v.containers[FirstMatch(v, s, i, 0)]|
    {
      var c := v.containers[k];
      if At(s, i, c) {
        if n == 0 {
          n := |c|;
        }
        if leads[i + |c|] {
          assert LeadsThrough(v, s, i, k);
          return |c|, true;
        }
      }
      k := k + 1;
    }
  }

  /** One position of the right-to-left pass. */
  method FillOne(v: Vocabulary, s: string, i: nat, leads: array<bool>, matchLen: array<nat>, dropAt: array<bool>)
    requires Words(v) && i < |s| && leads != dropAt
    requires Filled(v, s, leads, matchLen, dropAt, i + 1)
    modifies leads, matchLen, dropAt
    ensures Filled(v, s, leads, matchLen, dropAt, i)
  {
    var len, drop := MatchContainers(v, s, i, leads);
    var lead := NounAt(v, s, i) || (At(s, i, DE) && leads[i + |DE|]) || drop;
    LeadsByParts(v, s, i);
    leads[i], matchLen[i], dropAt[i] := lead, len, drop;
  }

  method StripModifierContainers(v: Vocabulary, s: string) returns (out: string)
    requires Words(v)
    ensures out == KeptText(Walk(v, s, 0))
  {
    if s == "" {
      return s;
    }
    var n := |s|;
    var leads := new bool[n + 1](_ => false);
    var matchLen := new nat[n + 1](_ => 0);
    var dropAt := new bool[n + 1](_ => false);
    var i := n;
    while i > 0
      invariant 0 <= i <= n
      invariant Filled(v, s, leads, matchLen, dropAt, i)
    {
      i := i - 1;
      FillOne(v, s, i, leads, matchLen, dropAt);
    }
    out := Emit(v, s, leads, matchLen, dropAt);
  }

  lemma {:induction false} LeadsByParts(v: Vocabulary, s: string, i: nat)
    requires Words(v) && i < |s|
    ensures LeadsAt(v, s, i) <==> NounAt(v, s, i) || (At(s, i, DE) && LeadsAt(v, s, i + |DE|)) || DropAt(v, s, i)
  {
    var f := FirstLeading(v, s, i, 0);
    if f < |v.containers| { assert LeadsThrough(v, s, i, f); }
  }

  ghost predicate EmittedTo(v: Vocabulary, s: string, out: string, i: nat)
    requires Words(v) && i <= |s|
  {
    out + KeptText(Walk(v, s, i)) == KeptText(Walk(v, s, 0))
  }

  /** The walk starts with nothing written and ends with nothing left. */
  lemma {:induction false} EmitEnds(v: Vocabulary, s: string, out: string)
    requires Words(v)
    ensures EmittedTo(v, s, "", 0)
    ensures EmittedTo(v, s, out, |s|) ==> out == KeptText(Walk(v, s, 0))
  {
    assert "" + KeptText(Walk(v, s, 0)) == KeptText(Walk(v, s, 0));
    assert out + "" == out;
  }

  lemma {:induction false} EmitStep(v: Vocabulary, s: string, out: string, i: nat)
    requires Words(v) && i < |s| && EmittedTo(v, s, out, i)
    ensures var n := Width(v, s, i);
      EmittedTo(v, s, if DropAt(v, s, i) then out else out + s[i..i + n], i + n)
  {
    var n := Width(v, s, i);
    TextCons(PieceAt(v, s, i), Walk(v, s, i + n));
    if DropAt(v, s, i) {
      assert "" + KeptText(Walk(v, s, i + n)) == KeptText(Walk(v, s, i + n));
    } else {
      ConcatAssoc(out, s[i..i + n], KeptText(Walk(v, s, i + n)));
    }
  }

  method Emit(v: Vocabulary, s: string, leads: array<bool>, matchLen: array<nat>, dropAt: array<bool>) returns (out: string)
    requires Words(v) && Filled(v, s, leads, matchLen, dropAt, 0)
    ensures out == KeptText(Walk(v, s, 0))
  {
    hide Walk, KeptText, EmittedTo, LeadsAt;
    out := "";
    var i := 0;
    EmitEnds(v, s, out);
    while i < |s|
      invariant 0 <= i <= |s| && EmittedTo(v, s, out, i)
    {
      var l := matchLen[i];
      var step := if l > 0 then l else 1;
      EmitStep(v, s, out, i);
      if l == 0 || !dropAt[i] {
        out := out + s[i..i + step];
      }
      i := i + step;
    }
    EmitEnds(v, s, out);
  }
}
