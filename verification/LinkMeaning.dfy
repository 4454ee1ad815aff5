/** Which brackets are links or references (the last loop of protectedSpans in
    citationtext/citation.go), read off the brackets, and which labels are defined. */
module LinkMeaning {
  import opened GoText
  import opened Markdown
  import LineMeaning

  // ----- Definitions -----

  /** Up to three blanks, a bracketed label, a colon. */
  ghost predicate DefinesLabel(line: string, blanks: nat, name: string, rest: string) {
    && blanks <= 3 && line == seq(blanks, i => ' ') + "[" + name + "]:" + rest
    && name != [] && forall i :: 0 <= i < |name| ==> name[i] != ']' && name[i] != '\n'
  }

  lemma {:induction false} LabelLenOf(name: string, rest: string)
    requires (forall i :: 0 <= i < |name| ==> name[i] != ']' && name[i] != '\n') && rest != [] && rest[0] == ']'
    ensures LabelLen(name + rest) == |name|
  {
    if name == [] {
      assert name + rest == rest;
    } else {
      assert (name + rest)[0] == name[0] && (name + rest)[1..] == name[1..] + rest;
      LabelLenOf(name[1..], rest);
    }
  }

  lemma {:induction false} BlanksRun(blanks: nat, rest: string)
    requires rest != [] && rest[0] != ' '
    ensures CharRun(seq(blanks, i => ' ') + rest, ' ') == blanks
  {
    var s := seq(blanks, i => ' ') + rest;
    LineMeaning.CharRunIs(s, ' ', blanks);
  }

  lemma {:induction false} LabelInText(t: string, name: string) returns (rest: string)
    requires LabelIn(t) == Some(name)
    ensures t == name + ("]:" + rest) && name != [] && forall i :: 0 <= i < |name| ==> name[i] != ']' && name[i] != '\n'
  {
    var n := LabelLen(t);
    rest := t[n + 2..];
    assert t[n..] == "]:" + rest;
  }

  lemma {:induction false} DefinedIsText(line: string, name: string) returns (blanks: nat, rest: string)
    requires DefinedBy(line) == Some(name)
    ensures DefinesLabel(line, blanks, name, rest)
  {
    hide LabelIn, CharRun;
    blanks := CharRun(line, ' ');
    var left := seq(blanks, k => ' ');
    rest := LabelInText(line[blanks + 1..], name);
    assert line[..blanks] == left;
    assert line == line[..blanks] + "[" + line[blanks + 1..];
    JoinDefinition(left, name, rest);
  }

  lemma {:induction false} JoinDefinition(left: string, name: string, rest: string)
    ensures left + "[" + (name + ("]:" + rest)) == left + "[" + name + "]:" + rest
  {
  }

  lemma {:induction false} TextIsDefined(line: string, blanks: nat, name: string, rest: string)
    requires DefinesLabel(line, blanks, name, rest)
    ensures DefinedBy(line) == Some(name)
  {
    var left, tail, t := seq(blanks, i => ' '), "[" + name + "]:" + rest, name + ("]:" + rest);
    assert line == left + tail && tail == "[" + t;
    BlanksRun(blanks, tail);
    assert line[blanks] == tail[0] && line[blanks + 1..] == t;
    LabelLenOf(name, "]:" + rest);
    assert t[..|name|] == name && t[|name|] == ']' && t[|name| + 1] == ':';
  }

  lemma {:induction false} DefinedByMeaning(line: string, name: string)
    ensures DefinedBy(line) == Some(name) <==> exists blanks: nat, rest :: DefinesLabel(line, blanks, name, rest)
  {
    hide DefinedBy, DefinesLabel;
    if DefinedBy(line) == Some(name) {
      var blanks, rest := DefinedIsText(line, name);
    }
    if blanks: nat, rest :| DefinesLabel(line, blanks, name, rest) {
      TextIsDefined(line, blanks, name, rest);
    }
  }

  /** The line defines a label that is d in lower case. */
  ghost predicate DefinesAs(lower: CaseMap, line: string, d: string) {
    exists blanks: nat, name, rest :: DefinesLabel(line, blanks, name, rest) && d == Lower(lower, name)
  }

  lemma {:induction false} LabelOfMeaning(lower: CaseMap, line: string, d: string)
    ensures d in LabelOf(lower, line) <==> DefinesAs(lower, line, d)
  {
    hide DefinedBy, DefinesLabel, Lower;
    var defined := DefinedBy(line);
    if defined.Some? {
      DefinedByMeaning(line, defined.value);
    }
    if blanks: nat, name, rest :| DefinesLabel(line, blanks, name, rest) && d == Lower(lower, name) {
      DefinedByMeaning(line, name);
    }
  }

  /** The labels of a text are those that its lines define. */
  lemma {:induction false} DefinitionsMeaning(lower: CaseMap, s: string, d: string)
    ensures d in Definitions(lower, s) <==> exists line :: line in LineMeaning.Lines(s) && DefinesAs(lower, line, d)
    decreases |s|
  {
    hide LabelOf, DefinesAs;
    if s != [] {
      var n := LineLen(s);
      DefinitionsMeaning(lower, s[n..], d);
      LabelOfMeaning(lower, s[..n], d);
      assert forall line :: line in LineMeaning.Lines(s) <==> line == s[..n] || line in LineMeaning.Lines(s[n..]);
    }
  }

  // ----- Destinations and labels -----

  /** How deep the parentheses opened before `from` are still nested before m. */
  function Nesting(s: string, from: nat, m: nat): int
    requires from <= m <= |s|
    decreases m
  {
    if m == from then 1
    else Nesting(s, from, m - 1)
         + if Escaped(s, m - 1) then 0 else if s[m - 1] == '(' then 1 else if s[m - 1] == ')' then -1 else 0
  }

  lemma {:induction false} CloseParenFrom(s: string, from: nat, m: nat, n: nat)
    requires from <= m <= |s| && n == Nesting(s, from, m) && forall i :: from <= i < m ==> Nesting(s, from, i) > 0
    ensures var r := CloseParen(s, m, n);
      from <= r && (forall i :: from <= i < r ==> Nesting(s, from, i) > 0) && (r < |s| ==> Nesting(s, from, r) == 0)
    decreases |s| - m
  {
    if m < |s| && n > 0 {
      var n' := if Escaped(s, m) then n else if s[m] == '(' then n + 1 else if s[m] == ')' then n - 1 else n;
      assert Nesting(s, from, m + 1) == n';
      CloseParenFrom(s, from, m + 1, n');
    }
  }

  /** A destination ends where its parenthesis is closed, or with the text. */
  lemma {:induction false} CloseParenMeaning(s: string, from: nat)
    requires from <= |s|
    ensures var r := CloseParen(s, from, 1);
      from <= r <= |s| && (forall i :: from <= i < r ==> Nesting(s, from, i) > 0) && (r < |s| ==> Nesting(s, from, r) == 0)
  {
    CloseParenFrom(s, from, from, 1);
  }

  /** The bracket right in front of start, on the same line, opens at r. */
  predicate LabelInFront(s: string, start: nat, r: nat)
    requires start <= |s|
  {
    && r + 1 < start && s[start - 1] == ']' && s[r] == '[' && !Escaped(s, r)
    && forall i :: r < i < start - 1 ==> s[i] != '\n' && (s[i] == '[' ==> Escaped(s, i))
  }

  lemma {:induction false} OpenBeforeMeaning(s: string, k: nat)
    requires k <= |s|
    ensures match OpenBefore(s, k)
            case Some(r) => r < k && s[r] == '[' && !Escaped(s, r) && forall i :: r < i < k ==> s[i] != '\n' && (s[i] == '[' ==> Escaped(s, i))
            case None => forall r :: 0 <= r < k && s[r] == '[' && !Escaped(s, r) ==> exists i :: r <= i < k && s[i] == '\n'
  {
    if k > 0 && s[k - 1] != '\n' && (s[k - 1] != '[' || Escaped(s, k - 1)) {
      OpenBeforeMeaning(s, k - 1);
    }
  }

  /** A reference starts at the label right in front of it, or at its own bracket. */
  lemma {:induction false} ReferenceStartMeaning(s: string, start: nat)
    requires start <= |s|
    ensures forall r: nat :: LabelInFront(s, start, r) ==> ReferenceStart(s, start) == r
    ensures (forall r: nat :: !LabelInFront(s, start, r)) ==> ReferenceStart(s, start) == start
  {
    if start > 0 {
      OpenBeforeMeaning(s, start - 1);
      var o := OpenBefore(s, start - 1);
      if o.Some? && s[start - 1] == ']' {
        assert LabelInFront(s, start, o.value);
      }
      forall r: nat | LabelInFront(s, start, r) ensures ReferenceStart(s, start) == r {
        assert s[r] != '\n' && s[r] == '[' && !Escaped(s, r);
        if o.Some? {
          assert r == o.value;
        }
      }
    }
  }

  // ----- Which bracket closes which -----

  /** A bracket that is neither code nor escaped. */
  predicate BracketIs(p: Page, q: nat, c: char)
    requires |p.base| == |p.s|
  {
    q < |p.s| && p.s[q] == c && !p.base[q] && !Escaped(p.s, q)
  }

  predicate IsLink(p: Page, c: nat) {
    c + 1 < |p.s| && p.s[c + 1] == '('
  }

  /** Where the scan goes on behind a closing bracket: behind a destination. */
  function EndOf(p: Page, c: nat): (e: nat)
    requires c < |p.s|
    ensures c < e <= |p.s|
  {
    if IsLink(p, c) then CloseParen(p.s, c + 2, 1) else c + 1
  }

  /** The bracket at c closes the one at o, given the pairs closed before: both are brackets
      outside destinations, o is not closed yet, and every such bracket opened in between is. */
  ghost predicate ClosesAt(p: Page, before: set<(nat, nat)>, o: nat, c: nat)
    requires |p.base| == |p.s|
  {
    && o < c && BracketIs(p, o, '[') && BracketIs(p, c, ']')
    && OutsideOf(p, before, o) && OutsideOf(p, before, c) && !ClosedIn(before, o)
    && forall q: nat :: o < q < c && BracketIs(p, q, '[') && OutsideOf(p, before, q) ==> ClosedIn(before, q)
  }

  ghost predicate OutsideOf(p: Page, before: set<(nat, nat)>, q: nat) {
    forall a: nat, b: nat :: (a, b) in before && b < q && b < |p.s| ==> EndOf(p, b) <= q
  }

  ghost predicate ClosedIn(before: set<(nat, nat)>, q: nat) {
    exists b: nat :: (q, b) in before
  }

  /** The pairs whose closing bracket stands before n. */
  ghost function Matched(p: Page, n: nat): set<(nat, nat)>
    requires |p.base| == |p.s|
  {
    if n == 0 then {}
    else Matched(p, n - 1) + PairsAt(p, Matched(p, n - 1), n - 1)
  }

  ghost function PairsAt(p: Page, before: set<(nat, nat)>, c: nat): set<(nat, nat)>
    requires |p.base| == |p.s|
  {
    set o: nat | o < c && ClosesAt(p, before, o, c) :: (o, c)
  }

  ghost predicate Matches(p: Page, o: nat, c: nat)
    requires |p.base| == |p.s|
  {
    ClosesAt(p, Matched(p, c), o, c)
  }

  lemma {:induction false} MatchedIs(p: Page, n: nat, a: nat, b: nat)
    requires |p.base| == |p.s|
    ensures (a, b) in Matched(p, n) <==> b < n && Matches(p, a, b)
  {
    hide ClosesAt;
    if n > 0 {
      MatchedIs(p, n - 1, a, b);
      if b == n - 1 && Matches(p, a, b) { OpensEarlier(p, Matched(p, b), a, b); }
    }
  }

  lemma {:induction false} OpensEarlier(p: Page, before: set<(nat, nat)>, o: nat, c: nat)
    requires |p.base| == |p.s| && ClosesAt(p, before, o, c)
    ensures o < c < |p.s|
  {
  }

  /** Outside every destination. */
  ghost predicate Live(p: Page, q: nat)
    requires |p.base| == |p.s|
  {
    forall a: nat, b: nat :: b < q && b < |p.s| && Matches(p, a, b) ==> EndOf(p, b) <= q
  }

  ghost predicate ClosedBefore(p: Page, o: nat, c: nat)
    requires |p.base| == |p.s|
  {
    exists b: nat :: b < c && Matches(p, o, b)
  }

  /** A closing bracket closes the nearest bracket opened before it that is not closed yet;
      brackets inside destinations do not count. */
  lemma {:induction false} MatchesMeaning(p: Page, o: nat, c: nat)
    requires |p.base| == |p.s|
    ensures Matches(p, o, c)
       <==> && o < c && BracketIs(p, o, '[') && BracketIs(p, c, ']') && Live(p, o) && Live(p, c) && !ClosedBefore(p, o, c)
            && forall q: nat :: o < q < c && BracketIs(p, q, '[') && Live(p, q) ==> ClosedBefore(p, q, c)
  {
    var before := Matched(p, c);
    forall q: nat ensures ClosedIn(before, q) <==> ClosedBefore(p, q, c) { ClosedIs(p, q, c); }
    forall q: nat | q <= c ensures OutsideOf(p, before, q) <==> Live(p, q) { OutsideIs(p, q, c); }
    hide BracketIs, Live, ClosedBefore, OutsideOf, ClosedIn, Matched;
  }

  lemma {:induction false} ClosedIs(p: Page, q: nat, c: nat)
    requires |p.base| == |p.s|
    ensures ClosedIn(Matched(p, c), q) <==> ClosedBefore(p, q, c)
  {
    hide Matches, Matched;
    forall b: nat ensures (q, b) in Matched(p, c) <==> b < c && Matches(p, q, b) { MatchedIs(p, c, q, b); }
    if ClosedIn(Matched(p, c), q) {
      var b: nat :| (q, b) in Matched(p, c);
      assert Matches(p, q, b);
    }
    if ClosedBefore(p, q, c) {
      var b: nat :| b < c && Matches(p, q, b);
      assert (q, b) in Matched(p, c);
    }
  }

  lemma {:induction false} OutsideIs(p: Page, q: nat, c: nat)
    requires |p.base| == |p.s| && q <= c
    ensures OutsideOf(p, Matched(p, c), q) <==> Live(p, q)
  {
    hide Matches, Matched;
    forall a: nat, b: nat ensures (a, b) in Matched(p, c) <==> b < c && Matches(p, a, b) { MatchedIs(p, c, a, b); }
  }

  // ----- What is protected -----

  ghost predicate IsReference(p: Page, o: nat, c: nat)
    requires o < c < |p.s|
  {
    !IsLink(p, c) && Lower(p.lower, p.s[o + 1..c]) in p.defs
  }

  /** A link from its bracket to the end of its destination; a reference from the label in
      front of it, if there is one. */
  ghost predicate Covers(p: Page, o: nat, c: nat, q: nat)
    requires o < c < |p.s|
  {
    && q < EndOf(p, c)
    && (if IsLink(p, c) then o <= q else IsReference(p, o, c) && ReferenceStart(p.s, o) <= q)
  }

  ghost predicate InLink(p: Page, q: nat, i: nat)
    requires |p.base| == |p.s|
  {
    exists o: nat, c: nat :: c < i && c < |p.s| && o < c && Matches(p, o, c) && Covers(p, o, c, q)
  }

  /** The state of the scan at i. */
  ghost predicate Scanned(p: Page, i: nat, opens: seq<nat>, done: seq<bool>)
    requires |p.base| == |p.s|
  {
    && i == |done| <= |p.s| && Live(p, i)
    && (forall k, l :: 0 <= k < l < |opens| ==> opens[k] < opens[l])
    && (forall o: nat :: o in opens <==> o < i && BracketIs(p, o, '[') && Live(p, o) && !ClosedBefore(p, o, i))
    && (forall q :: 0 <= q < i ==> (done[q] <==> p.base[q] || InLink(p, q, i)))
  }

  lemma {:induction false} ScannedOpens(p: Page, i: nat, opens: seq<nat>, done: seq<bool>)
    requires |p.base| == |p.s| && Scanned(p, i, opens, done)
    ensures Opens(opens, i)
  {
    forall k | 0 <= k < |opens| ensures opens[k] < i { assert opens[k] in opens; }
  }

  /** The last open bracket is the one that a closing bracket closes. */
  lemma {:induction false} ClosesLast(p: Page, i: nat, opens: seq<nat>, done: seq<bool>)
    requires |p.base| == |p.s| && Scanned(p, i, opens, done) && BracketIs(p, i, ']')
    ensures forall o: nat :: Matches(p, o, i) <==> opens != [] && o == opens[|opens| - 1]
  {
    hide BracketIs, Live, ClosedBefore, Matches;
    forall o: nat ensures Matches(p, o, i) <==> opens != [] && o == opens[|opens| - 1] {
      MatchesMeaning(p, o, i);
      if opens != [] {
        var start := opens[|opens| - 1];
        assert start in opens;
        if Matches(p, o, i) {
          assert o in opens;
          assert o <= start;
        }
        if o == start {
          forall q: nat | o < q < i && BracketIs(p, q, '[') && Live(p, q) ensures ClosedBefore(p, q, i) {
            assert q !in opens;
          }
        }
      } else {
        assert o !in opens;
      }
    }
  }

  /** Nothing matches strictly inside a destination, or before anything. */
  lemma {:induction false} NothingInside(p: Page, i: nat, o: nat, b: nat, a: nat)
    requires |p.base| == |p.s| && i < |p.s| && Matches(p, o, i) && i < b < EndOf(p, i)
    ensures !Matches(p, a, b)
  {
    MatchesMeaning(p, a, b);
    assert !Live(p, b);
  }

  /** The scan's state after a position that matches nothing. */
  lemma {:induction false} NextPlain(p: Page, i: nat, opens: seq<nat>, done: seq<bool>)
    requires |p.base| == |p.s| && Scanned(p, i, opens, done) && i < |p.s| && forall o: nat :: !Matches(p, o, i)
    ensures Scanned(p, i + 1, if BracketIs(p, i, '[') then opens + [i] else opens, done + [p.base[i]])
  {
    hide BracketIs, Matches, Covers;
    var opens', done' := if BracketIs(p, i, '[') then opens + [i] else opens, done + [p.base[i]];
    assert Live(p, i + 1) by {
      forall a: nat, b: nat | b < i + 1 && b < |p.s| && Matches(p, a, b) ensures EndOf(p, b) <= i + 1 {}
    }
    forall o: nat ensures o in opens' <==> o < i + 1 && BracketIs(p, o, '[') && Live(p, o) && !ClosedBefore(p, o, i + 1) {
      SameClosed(p, o, i);
      if o == i { NotYetClosed(p, i); }
    }
    forall q | 0 <= q < i + 1 ensures done'[q] <==> p.base[q] || InLink(p, q, i + 1) {
      SameLinks(p, q, i);
      if q == i { LinksReach(p, i, i); }
    }
    OpensAscend(p, i, opens, done);
  }

  lemma {:induction false} OpensAscend(p: Page, i: nat, opens: seq<nat>, done: seq<bool>)
    requires |p.base| == |p.s| && Scanned(p, i, opens, done)
    ensures forall k, l :: 0 <= k < l < |opens + [i]| ==> (opens + [i])[k] < (opens + [i])[l]
  {
    ScannedOpens(p, i, opens, done);
  }

  lemma {:induction false} SameClosed(p: Page, o: nat, i: nat)
    requires |p.base| == |p.s| && !Matches(p, o, i)
    ensures ClosedBefore(p, o, i + 1) <==> ClosedBefore(p, o, i)
  {
    hide Matches;
    if ClosedBefore(p, o, i + 1) {
      var b: nat :| b < i + 1 && Matches(p, o, b);
      assert b < i;
    }
    if ClosedBefore(p, o, i) {
      var b: nat :| b < i && Matches(p, o, b);
    }
  }

  lemma {:induction false} NotYetClosed(p: Page, i: nat)
    requires |p.base| == |p.s|
    ensures !ClosedBefore(p, i, i) && !ClosedBefore(p, i, i + 1)
  {
  }

  lemma {:induction false} SameLinks(p: Page, q: nat, i: nat)
    requires |p.base| == |p.s| && forall o: nat :: !Matches(p, o, i)
    ensures InLink(p, q, i + 1) <==> InLink(p, q, i)
  {
    hide Matches, Covers;
    if InLink(p, q, i + 1) {
      var o: nat, c: nat :| c < i + 1 && c < |p.s| && o < c && Matches(p, o, c) && Covers(p, o, c, q);
      assert c < i;
    }
  }

  /** What is closed before i reaches no further than i. */
  lemma {:induction false} LinksReach(p: Page, i: nat, q: nat)
    requires |p.base| == |p.s| && Live(p, i) && q >= i
    ensures !InLink(p, q, i)
  {
    hide Matches;
    forall o: nat, c: nat | c < i && c < |p.s| && o < c && Matches(p, o, c) ensures !Covers(p, o, c, q) {}
  }

  /** The scan's state behind a closing bracket that matches. */
  lemma {:induction false} NextClosed(p: Page, i: nat, opens: seq<nat>, done: seq<bool>, start: nat, done': seq<bool>)
    requires |p.base| == |p.s| && Scanned(p, i, opens, done) && i < |p.s| && BracketIs(p, i, ']')
    requires opens != [] && start == opens[|opens| - 1]
    requires start < i && Opens(opens[..|opens| - 1], i) && done' == CloseTurn(p, i, start, opens[..|opens| - 1], done).done
    ensures CloseTurn(p, i, start, opens[..|opens| - 1], done).next == EndOf(p, i)
    ensures Scanned(p, EndOf(p, i), opens[..|opens| - 1], done')
  {
    hide Matches, Covers, Live, ClosedBefore, InLink, ReferenceStart, CloseParen, Lower;
    var e, rest := EndOf(p, i), opens[..|opens| - 1];
    ClosesLast(p, i, opens, done);
    LiveBehind(p, i, start);
    forall o: nat ensures o in rest <==> o < e && BracketIs(p, o, '[') && Live(p, o) && !ClosedBefore(p, o, e) {
      ClosedBehind(p, i, start, o);
      OpenBehind(p, i, start, o);
      LastOnly(opens, o);
    }
    forall q | 0 <= q < e ensures done'[q] <==> p.base[q] || InLink(p, q, e) {
      LinksBehind(p, i, start, q);
      DoneBehind(p, i, start, rest, done, q);
      if q >= i { LinksReach(p, i, q); InsideIsFree(p, i, start, q); }
    }
  }

  lemma {:induction false} LastOnly(opens: seq<nat>, o: nat)
    requires opens != [] && forall k, l :: 0 <= k < l < |opens| ==> opens[k] < opens[l]
    ensures o in opens[..|opens| - 1] <==> o in opens && o != opens[|opens| - 1]
  {
  }

  lemma {:induction false} LiveBehind(p: Page, i: nat, start: nat)
    requires |p.base| == |p.s| && i < |p.s| && Live(p, i) && Matches(p, start, i)
    ensures Live(p, EndOf(p, i))
  {
    hide Matches;
    forall a: nat, b: nat | b < EndOf(p, i) && b < |p.s| && Matches(p, a, b) ensures EndOf(p, b) <= EndOf(p, i) {
      if b > i { NothingInside(p, i, start, b, a); }
    }
  }

  lemma {:induction false} ClosedBehind(p: Page, i: nat, start: nat, o: nat)
    requires |p.base| == |p.s| && i < |p.s| && Matches(p, start, i) && forall a: nat :: Matches(p, a, i) ==> a == start
    ensures ClosedBefore(p, o, EndOf(p, i)) <==> ClosedBefore(p, o, i) || o == start
  {
    hide Matches;
    if ClosedBefore(p, o, EndOf(p, i)) {
      var b: nat :| b < EndOf(p, i) && Matches(p, o, b);
      if b > i { NothingInside(p, i, start, b, o); }
    }
    if ClosedBefore(p, o, i) {
      var b: nat :| b < i && Matches(p, o, b);
    }
  }

  lemma {:induction false} OpenBehind(p: Page, i: nat, start: nat, o: nat)
    requires |p.base| == |p.s| && i < |p.s| && Matches(p, start, i) && BracketIs(p, i, ']')
    ensures i <= o < EndOf(p, i) ==> !(BracketIs(p, o, '[') && Live(p, o))
  {
    hide Matches;
  }

  lemma {:induction false} LinksBehind(p: Page, i: nat, start: nat, q: nat)
    requires |p.base| == |p.s| && i < |p.s| && start < i && Matches(p, start, i) && forall a: nat :: Matches(p, a, i) ==> a == start
    ensures InLink(p, q, EndOf(p, i)) <==> InLink(p, q, i) || Covers(p, start, i, q)
  {
    hide Matches, Covers;
    if InLink(p, q, EndOf(p, i)) {
      var o: nat, c: nat :| c < EndOf(p, i) && c < |p.s| && o < c && Matches(p, o, c) && Covers(p, o, c, q);
      if c > i { NothingInside(p, i, start, c, o); }
    }
  }

  lemma {:induction false} DoneBehind(p: Page, i: nat, start: nat, rest: seq<nat>, done: seq<bool>, q: nat)
    requires |p.base| == |p.s| && |done| == i < |p.s| && start < i && Opens(rest, i) && q < EndOf(p, i)
    ensures CloseTurn(p, i, start, rest, done).next == EndOf(p, i)
    ensures CloseTurn(p, i, start, rest, done).done[q]
       <==> Covers(p, start, i, q) || (if q < i then done[q] else q == i && !IsLink(p, i) && !IsReference(p, start, i) && p.base[i])
  {
    hide ReferenceStart, CloseParen, Lower;
  }

  lemma {:induction false} InsideIsFree(p: Page, i: nat, start: nat, q: nat)
    requires |p.base| == |p.s| && i < |p.s| && BracketIs(p, i, ']') && i <= q < EndOf(p, i) && start < i
    ensures IsLink(p, i) ==> Covers(p, start, i, q)
    ensures !IsLink(p, i) ==> q == i && !p.base[q]
  {
  }

  lemma {:induction false} LinkMaskFrom(p: Page, i: nat, opens: seq<nat>, done: seq<bool>, q: nat)
    requires |p.base| == |p.s| && Scanned(p, i, opens, done) && Opens(opens, i) && q < |p.s|
    ensures LinkMask(p, i, opens, done)[q] <==> p.base[q] || InLink(p, q, |p.s|)
    decreases |p.s| - i
  {
    hide InLink, CloseTurn, Matches, Live, ClosedBefore;
    if i < |p.s| {
      var t := LinkTurn(p, i, opens, done);
      if BracketIs(p, i, ']') {
        ClosesLast(p, i, opens, done);
      } else {
        NoCloser(p, i);
      }
      if BracketIs(p, i, ']') && opens != [] {
        assert t == CloseTurn(p, i, opens[|opens| - 1], opens[..|opens| - 1], done);
        NextClosed(p, i, opens, done, opens[|opens| - 1], t.done);
        ClosedPops(p, i, opens[|opens| - 1], opens[..|opens| - 1], done);
      } else {
        assert t == Turn(i + 1, if BracketIs(p, i, '[') then opens + [i] else opens, done + [p.base[i]]);
        NextPlain(p, i, opens, done);
      }
      LinkMaskFrom(p, t.next, t.opens, t.done, q);
    }
  }

  lemma {:induction false} ClosedPops(p: Page, i: nat, start: nat, rest: seq<nat>, done: seq<bool>)
    requires |p.base| == |p.s| && |done| == i < |p.s| && start < i && Opens(rest, i)
    ensures CloseTurn(p, i, start, rest, done).opens == rest
  {
  }

  lemma {:induction false} NoCloser(p: Page, i: nat)
    requires |p.base| == |p.s| && !BracketIs(p, i, ']')
    ensures forall o: nat :: !Matches(p, o, i)
  {
  }

  lemma {:induction false} ScanStarts(p: Page)
    requires |p.base| == |p.s|
    ensures Scanned(p, 0, [], []) && Opens([], 0)
  {
  }

  /** The bracket scan protects exactly what was protected, the links and the references. */
  lemma {:induction false} LinkMaskMeaning(p: Page, q: nat)
    requires |p.base| == |p.s| && q < |p.s|
    ensures LinkMask(p, 0, [], [])[q] <==> p.base[q] || InLink(p, q, |p.s|)
  {
    ScanStarts(p);
    LinkMaskFrom(p, 0, [], [], q);
  }
}
