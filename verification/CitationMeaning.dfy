/** What a citation group says: which texts are markers and which numbers they denote, read
    off the text (the regular expressions and the group loop of citationtext/citation.go). */
module CitationMeaning {
  import opened GoText
  import opened Citation
  import opened CitationText

  // ----- Items -----

  predicate Blanks(s: string) {
    forall i :: 0 <= i < |s| ==> IsBlank(s[i])
  }

  predicate Numeral(s: string) {
    s != [] && AllDigits(s)
  }

  /** A number, or two numbers with a dash between them and any blanks around the dash. */
  ghost predicate NumberText(s: string, first: nat, last: nat) {
    Numeral(s) && first == last == Atoi(s)
  }

  ghost predicate RangeText(s: string, a: string, left: string, dash: char, right: string, b: string, first: nat, last: nat) {
    && s == a + left + [dash] + right + b
    && Numeral(a) && Numeral(b) && Blanks(left) && Blanks(right) && IsDash(dash)
    && first == Atoi(a) && last == Atoi(b)
  }

  ghost predicate ItemText(s: string, first: nat, last: nat) {
    NumberText(s, first, last) || exists a, left, dash, right, b :: RangeText(s, a, left, dash, right, b, first, last)
  }

  /** The same with any blanks around it. */
  ghost predicate Denotes(s: string, first: nat, last: nat) {
    exists left, x, right :: Surrounded(s, left, x, right) && ItemText(x, first, last)
  }

  ghost predicate Surrounded(s: string, left: string, x: string, right: string) {
    s == left + x + right && Blanks(left) && Blanks(right)
  }

  lemma {:induction false} TrimLeftBlanks(left: string, x: string)
    requires Blanks(left) && (x == [] || !IsBlank(x[0]))
    ensures TrimLeft(left + x) == x
  {
    if left == [] {
      assert left + x == x;
    } else {
      assert (left + x)[1..] == left[1..] + x;
      TrimLeftBlanks(left[1..], x);
    }
  }

  lemma {:induction false} TrimRightBlanks(x: string, right: string)
    requires Blanks(right) && (x == [] || !IsBlank(x[|x| - 1]))
    ensures TrimRight(x + right) == x
    decreases |right|
  {
    if right == [] {
      assert x + right == x;
    } else {
      var front := right[..|right| - 1];
      assert (x + right)[..|x + right| - 1] == x + front;
      TrimRightBlanks(x, front);
    }
  }

  lemma {:induction false} TrimLeftIs(s: string) returns (left: string)
    ensures s == left + TrimLeft(s) && Blanks(left) && (TrimLeft(s) == [] || !IsBlank(TrimLeft(s)[0]))
  {
    if s != [] && IsBlank(s[0]) {
      var rest := TrimLeftIs(s[1..]);
      left := [s[0]] + rest;
      assert s == [s[0]] + s[1..];
    } else {
      left := [];
    }
  }

  lemma {:induction false} TrimRightIs(s: string) returns (right: string)
    ensures s == TrimRight(s) + right && Blanks(right) && (TrimRight(s) == [] || !IsBlank(TrimRight(s)[|TrimRight(s)| - 1]))
    ensures TrimRight(s) != [] ==> TrimRight(s)[0] == s[0]
    decreases |s|
  {
    if s != [] && IsBlank(s[|s| - 1]) {
      var rest := TrimRightIs(s[..|s| - 1]);
      right := rest + [s[|s| - 1]];
      assert s == s[..|s| - 1] + [s[|s| - 1]];
    } else {
      right := [];
    }
  }

  lemma {:induction false} TrimIs(s: string) returns (left: string, right: string)
    ensures Surrounded(s, left, Trim(s), right)
    ensures Trim(s) == [] || (!IsBlank(Trim(s)[0]) && !IsBlank(Trim(s)[|Trim(s)| - 1]))
  {
    left := TrimLeftIs(s);
    right := TrimRightIs(TrimLeft(s));
    assert left + (Trim(s) + right) == left + Trim(s) + right;
  }

  lemma {:induction false} TrimOf(s: string, left: string, x: string, right: string)
    requires Surrounded(s, left, x, right) && x != [] && !IsBlank(x[0]) && !IsBlank(x[|x| - 1])
    ensures Trim(s) == x
  {
    assert s == left + (x + right) && (x + right)[0] == x[0];
    TrimLeftBlanks(left, x + right);
    TrimRightBlanks(x, right);
  }

  lemma {:induction false} DigitRunOf(a: string, rest: string)
    requires AllDigits(a) && (rest == [] || !IsDigit(rest[0]))
    ensures DigitRun(a + rest) == |a| && (a + rest)[..|a|] == a && (a + rest)[|a|..] == rest
  {
    if a == [] {
      assert a + rest == rest;
    } else {
      assert (a + rest)[0] == a[0] && (a + rest)[1..] == a[1..] + rest;
      DigitRunOf(a[1..], rest);
    }
  }

  /** An item, read from its text. */
  lemma {:induction false} ItemOfNumber(s: string, n: nat)
    requires NumberText(s, n, n)
    ensures Item(s) == Some((n, n))
  {
    DigitRunOf(s, "");
    assert s + "" == s;
  }

  lemma {:induction false} ItemOfRange(s: string, a: string, left: string, dash: char, right: string, b: string, first: nat, last: nat)
    requires RangeText(s, a, left, dash, right, b, first, last)
    ensures Item(s) == Some((first, last))
  {
    var rest := left + ([dash] + (right + b));
    assert s == a + rest && rest[0] == if left == [] then dash else left[0];
    DigitRunOf(a, rest);
    TrimLeftBlanks(left, [dash] + (right + b));
    TrimLeftBlanks(right, b);
    assert ([dash] + (right + b))[1..] == right + b;
  }

  lemma {:induction false} ItemIsText(s: string, first: nat, last: nat)
    requires Item(s) == Some((first, last))
    ensures ItemText(s, first, last)
  {
    var n := DigitRun(s);
    var a := s[..n];
    assert Numeral(a);
    if n == |s| {
      assert a == s;
    } else {
      var left := TrimLeftIs(s[n..]);
      var rest := TrimLeft(s[n..]);
      var right := TrimLeftIs(rest[1..]);
      var b := TrimLeft(rest[1..]);
      assert s == a + s[n..] && rest == [rest[0]] + rest[1..];
      assert s == a + left + [rest[0]] + right + b;
      assert RangeText(s, a, left, rest[0], right, b, first, last);
    }
  }

  lemma {:induction false} ItemMeaning(s: string, first: nat, last: nat)
    ensures Item(s) == Some((first, last)) <==> ItemText(s, first, last)
  {
    if ItemText(s, first, last) {
      if NumberText(s, first, last) {
        ItemOfNumber(s, first);
      } else {
        var a, left, dash, right, b :| RangeText(s, a, left, dash, right, b, first, last);
        ItemOfRange(s, a, left, dash, right, b, first, last);
      }
    }
    if Item(s) == Some((first, last)) {
      ItemIsText(s, first, last);
    }
  }

  /** An item starts and ends with a digit. */
  lemma {:induction false} ItemEdges(x: string, first: nat, last: nat)
    requires ItemText(x, first, last)
    ensures x != [] && !IsBlank(x[0]) && !IsBlank(x[|x| - 1])
  {
    if !NumberText(x, first, last) {
      var a, left, dash, right, b :| RangeText(x, a, left, dash, right, b, first, last);
      assert x[0] == a[0] && x[|x| - 1] == b[|b| - 1];
    }
  }

  lemma {:induction false} DenotesIff(s: string, first: nat, last: nat)
    ensures Item(Trim(s)) == Some((first, last)) <==> Denotes(s, first, last)
  {
    ItemMeaning(Trim(s), first, last);
    if Item(Trim(s)) == Some((first, last)) {
      var left, right := TrimIs(s);
      assert Surrounded(s, left, Trim(s), right);
    }
    if Denotes(s, first, last) {
      var left, x, right :| Surrounded(s, left, x, right) && ItemText(x, first, last);
      ItemEdges(x, first, last);
      TrimOf(s, left, x, right);
    }
  }

  // ----- Groups -----

  predicate NoComma(s: string) {
    forall i :: 0 <= i < |s| ==> !IsComma(s[i])
  }

  lemma {:induction false} PartsOfOne(s: string)
    requires NoComma(s)
    ensures Parts(s) == [s]
  {
    if s != [] {
      PartsOfOne(s[1..]);
      assert [s[0]] + s[1..] == s;
    }
  }

  lemma {:induction false} PartsCons(c: char, rest: string)
    ensures var p := Parts(rest);
      Parts([c] + rest) == if IsComma(c) then [""] + p else [[c] + p[0]] + p[1..]
  {
    assert ([c] + rest)[1..] == rest;
  }

  lemma {:induction false} PartsJoin(x: string, c: char, y: string)
    requires IsComma(c)
    ensures Parts(x + [c] + y) == Parts(x) + Parts(y)
  {
    if x == [] {
      assert x + [c] + y == [c] + y;
      PartsCons(c, y);
      PartsOfOne(x);
    } else {
      var rest := x[1..] + [c] + y;
      assert x + [c] + y == [x[0]] + rest && x == [x[0]] + x[1..];
      hide Parts;
      PartsJoin(x[1..], c, y);
      PartsCons(x[0], rest);
      PartsCons(x[0], x[1..]);
      HeadJoin(x[0], Parts(x[1..]), Parts(y));
    }
  }

  lemma {:induction false} HeadJoin(c: char, p: seq<string>, q: seq<string>)
    requires p != []
    ensures [""] + (p + q) == [""] + p + q && [[c] + (p + q)[0]] + (p + q)[1..] == [[c] + p[0]] + p[1..] + q
  {
    assert (p + q)[1..] == p[1..] + q;
  }

  predicate InBounds(first: nat, last: nat) {
    1 <= first <= last <= MAX_INDEX && last - first + 1 <= MAX_GROUP_SIZE
  }

  /** A group without a comma denotes exactly what its text says: a number or a range in
      bounds, each number of it once and in order; and nothing otherwise. */
  lemma {:induction false} OneItemMeaning(s: string)
    requires NoComma(s)
    ensures forall first, last :: Denotes(s, first, last) && InBounds(first, last) ==> GroupIndices(s) == Range(first, last)
    ensures GroupIndices(s) == [] <==> !exists first, last :: Denotes(s, first, last) && InBounds(first, last)
  {
    PartsOfOne(s);
    forall first, last | Denotes(s, first, last) && InBounds(first, last) ensures GroupIndices(s) == Range(first, last) && GroupIndices(s) != [] {
      DenotesIff(s, first, last);
      OneIndex(s, first, last);
    }
    if GroupIndices(s) != [] {
      assert Item(Trim(s)).Some?;
      var (first, last) := Item(Trim(s)).value;
      DenotesIff(s, first, last);
      assert Denotes(s, first, last) && InBounds(first, last);
    }
  }

  lemma {:induction false} OneIndex(s: string, first: nat, last: nat)
    requires Item(Trim(s)) == Some((first, last)) && InBounds(first, last)
    ensures Indices([s], []) == Range(first, last)
  {
    assert [s][1..] == [] && [] + Range(first, last) == Range(first, last);
  }

  /** Continuing a list. */
  function Continued(found: seq<nat>, more: seq<nat>): seq<nat> {
    if more != [] && |found| + |more| <= MAX_GROUP_SIZE then found + more else []
  }

  /** The list of parts whose first one is in order. */
  lemma {:induction false} IndicesStep(parts: seq<string>, found: seq<nat>, first: nat, last: nat)
    requires parts != [] && |found| <= MAX_GROUP_SIZE && Item(Trim(parts[0])) == Some((first, last)) && InBounds(first, last)
    ensures Indices(parts, found)
         == if |found| + |Range(first, last)| > MAX_GROUP_SIZE then [] else Indices(parts[1..], found + Range(first, last))
  {
    hide Item, Trim;
  }

  lemma {:induction false} IndicesStop(parts: seq<string>, found: seq<nat>)
    requires parts != [] && var item := Item(Trim(parts[0])); item.None? || !InBounds(item.value.0, item.value.1)
    ensures Indices(parts, found) == []
  {
    hide Item, Trim;
  }

  lemma {:induction false} IndicesFrom(parts: seq<string>, found: seq<nat>)
    requires parts != [] && |found| <= MAX_GROUP_SIZE
    ensures Indices(parts, found) == Continued(found, Indices(parts, []))
    ensures |Indices(parts, [])| <= MAX_GROUP_SIZE
  {
    var item, rest := Item(Trim(parts[0])), parts[1..];
    if item.None? || !InBounds(item.value.0, item.value.1) {
      IndicesStop(parts, found);
      IndicesStop(parts, []);
    } else {
      var (first, last) := item.value;
      IndicesStep(parts, found, first, last);
      IndicesStep(parts, [], first, last);
      hide Item, Trim, Indices, InBounds;
      var r := Range(first, last);
      assert [] + r == r;
      if rest == [] {
        NoMoreParts(found + r);
        NoMoreParts(r);
      } else {
        IndicesFrom(rest, r);
        if |found| + |r| <= MAX_GROUP_SIZE {
          IndicesFrom(rest, found + r);
          ConcatAssoc(found, r, Indices(rest, []));
        }
      }
    }
  }

  lemma {:induction false} NoMoreParts(found: seq<nat>)
    ensures Indices([], found) == found
  {
  }

  lemma {:induction false} IndicesAppend(p: seq<string>, q: seq<string>, found: seq<nat>)
    requires p != [] && q != [] && |found| <= MAX_GROUP_SIZE
    ensures Indices(p + q, found) == if Indices(p, found) == [] then [] else Indices(q, Indices(p, found))
    decreases |p|
  {
    var item := Item(Trim(p[0]));
    assert (p + q)[0] == p[0] && (p + q)[1..] == p[1..] + q;
    if item.Some? {
      var (first, last) := item.value;
      if InBounds(first, last) && |found| + (last - first + 1) <= MAX_GROUP_SIZE {
        if p[1..] == [] {
          assert p[1..] + q == q;
        } else {
          IndicesAppend(p[1..], q, found + Range(first, last));
        }
      }
    }
  }

  /** A comma joins two lists: the group denotes both in order if both denote something and
      are within the bound together, and nothing otherwise. */
  lemma {:induction false} CommaMeaning(x: string, c: char, y: string)
    requires IsComma(c)
    ensures GroupIndices(x + [c] + y)
         == if GroupIndices(x) != [] && GroupIndices(y) != [] && |GroupIndices(x)| + |GroupIndices(y)| <= MAX_GROUP_SIZE
            then GroupIndices(x) + GroupIndices(y) else []
  {
    PartsJoin(x, c, y);
    IndicesAppend(Parts(x), Parts(y), []);
    IndicesFrom(Parts(x), []);
    if GroupIndices(x) != [] {
      IndicesFrom(Parts(y), GroupIndices(x));
    }
  }

  /** In particular a range a-b denotes a, a + 1, .., b, for every dash and any blanks. */
  lemma {:induction false} RangeMeaning(lead: string, a: nat, left: string, dash: char, right: string, b: nat, trail: string)
    requires Blanks(lead) && Blanks(left) && Blanks(right) && Blanks(trail) && IsDash(dash) && InBounds(a, b)
    ensures var r := GroupIndices(lead + (Itoa(a) + left + [dash] + right + Itoa(b)) + trail);
      |r| == b - a + 1 && forall i :: 0 <= i < |r| ==> r[i] == a + i
  {
    var x := Itoa(a) + left + [dash] + right + Itoa(b);
    var s := lead + x + trail;
    AtoiItoa(a);
    AtoiItoa(b);
    assert RangeText(x, Itoa(a), left, dash, right, Itoa(b), a, b);
    assert Surrounded(s, lead, x, trail);
    RangeHasNoComma(x, Itoa(a), left, dash, right, Itoa(b));
    assert NoComma(s);
    OneItemMeaning(s);
    assert Denotes(s, a, b);
  }

  lemma {:induction false} RangeHasNoComma(x: string, a: string, left: string, dash: char, right: string, b: string)
    requires x == a + left + [dash] + right + b && AllDigits(a) && AllDigits(b) && Blanks(left) && Blanks(right) && IsDash(dash)
    ensures NoComma(x)
  {
  }

  // ----- Markers -----

  /** A date: four, two and two digits with dashes between them. */
  ghost predicate DateText(s: string, y: string, d1: char, m: string, d2: char, d: string) {
    && s == y + [d1] + m + [d2] + d
    && |y| == 4 && |m| == 2 && |d| == 2 && AllDigits(y) && AllDigits(m) && AllDigits(d) && IsDash(d1) && IsDash(d2)
  }

  ghost predicate DateBody(s: string) {
    exists left, x, right, y, d1, m, d2, d :: Surrounded(s, left, x, right) && DateText(x, y, d1, m, d2, d)
  }

  lemma {:induction false} DateMeaning(s: string)
    ensures DateShape(Trim(s)) <==> DateBody(s)
  {
    if DateShape(Trim(s)) {
      var x := Trim(s);
      var left, right := TrimIs(s);
      assert x == x[..4] + [x[4]] + x[5..7] + [x[7]] + x[8..];
      assert Surrounded(s, left, x, right) && DateText(x, x[..4], x[4], x[5..7], x[7], x[8..]);
    }
    if DateBody(s) {
      var left, x, right, y, d1, m, d2, d :| Surrounded(s, left, x, right) && DateText(x, y, d1, m, d2, d);
      assert x[0] == y[0] && x[|x| - 1] == d[1];
      TrimOf(s, left, x, right);
      DateParts(x, y, d1, m, d2, d);
    }
  }

  lemma {:induction false} DateParts(x: string, y: string, d1: char, m: string, d2: char, d: string)
    requires DateText(x, y, d1, m, d2, d)
    ensures DateShape(x)
  {
    assert x[..4] == y && x[4] == d1 && x[5..7] == m && x[7] == d2 && x[8..] == d;
  }

  /** The bracket expression: a digit behind any blanks, then digits and separators only. */
  ghost predicate Bracketed(t: Text, p: nat, q: nat) {
    && p + 3 <= q <= |t| && t[p].c == '[' && t[q - 1].c == ']'
    && (forall i :: p < i < q - 1 ==> InGroup(t[i].c))
    && exists k :: p < k < q - 1 && IsDigit(t[k].c) && forall i :: p < i < k ==> IsBlank(t[i].c)
  }

  /** A marker: a bracket expression that is not protected, escaped, an image, a link or a
      definition, nor a date. */
  ghost predicate IsMarker(t: Text, p: nat, q: nat) {
    && Bracketed(t, p, q) && !t[p].protected && !Escaped(t, p)
    && (p > 0 ==> t[p - 1].c != '!')
    && (q < |t| ==> t[q].c != '(' && t[q].c != ':')
    && !DateBody(Chars(t[p + 1..q - 1]))
  }

  lemma {:induction false} BodyRunIs(t: Text, n: nat)
    requires n <= |t| && (forall i :: 0 <= i < n ==> InGroup(t[i].c)) && (n < |t| ==> !InGroup(t[n].c))
    ensures BodyRun(t) == n
  {
    if n > 0 {
      BodyRunIs(t[1..], n - 1);
    }
  }

  lemma {:induction false} LeadDigit(s: string)
    ensures (TrimLeft(s) != [] && IsDigit(TrimLeft(s)[0])) <==> exists k :: 0 <= k < |s| && IsDigit(s[k]) && forall i :: 0 <= i < k ==> IsBlank(s[i])
  {
    var left := TrimLeftIs(s);
    if TrimLeft(s) != [] && IsDigit(TrimLeft(s)[0]) {
      assert s[|left|] == TrimLeft(s)[0];
      assert forall i :: 0 <= i < |left| ==> s[i] == left[i];
    }
    if k :| 0 <= k < |s| && IsDigit(s[k]) && forall i :: 0 <= i < k ==> IsBlank(s[i]) {
      assert s == s[..k] + s[k..];
      TrimLeftBlanks(s[..k], s[k..]);
    }
  }

  lemma {:induction false} CandidateMeaning(t: Text, p: nat, q: nat)
    requires p < |t| && p <= q
    ensures Candidate(t[p..]) == Some(q - p) <==> Bracketed(t, p, q)
  {
    var u := t[p..];
    if Candidate(u) == Some(q - p) {
      var n := q - p - 2;
      assert BodyRun(u[1..]) == n;
      forall i | p < i < q - 1 ensures InGroup(t[i].c) { assert t[i] == u[1..][i - p - 1]; }
      BodyDigit(t, p, q);
      assert t[q - 1] == u[q - p - 1];
    }
    if Bracketed(t, p, q) {
      var n := q - p - 2;
      forall i | 0 <= i < n ensures InGroup(u[1..][i].c) { assert u[1..][i] == t[p + 1 + i]; }
      assert u[1..][n] == t[q - 1] && !InGroup(']');
      BodyRunIs(u[1..], n);
      BodyDigit(t, p, q);
      assert u[1 + n] == t[q - 1];
    }
  }

  /** The first nonblank character of a body. */
  lemma {:induction false} BodyDigit(t: Text, p: nat, q: nat)
    requires p + 2 <= q <= |t|
    ensures t[p..][1..][..q - p - 2] == t[p + 1..q - 1]
    ensures var lead := TrimLeft(Chars(t[p + 1..q - 1]));
      (lead != [] && IsDigit(lead[0])) <==> exists k :: p < k < q - 1 && IsDigit(t[k].c) && forall i :: p < i < k ==> IsBlank(t[i].c)
  {
    var s := Chars(t[p + 1..q - 1]);
    assert t[p..][1..][..q - p - 2] == t[p + 1..q - 1];
    LeadDigit(s);
    if k :| 0 <= k < |s| && IsDigit(s[k]) && forall i :: 0 <= i < k ==> IsBlank(s[i]) {
      forall i | p < i < p + 1 + k ensures IsBlank(t[i].c) { assert s[i - p - 1] == t[i].c; }
      assert IsDigit(t[p + 1 + k].c);
    }
    if k :| p < k < q - 1 && IsDigit(t[k].c) && forall i :: p < i < k ==> IsBlank(t[i].c) {
      forall i | 0 <= i < k - p - 1 ensures IsBlank(s[i]) { assert s[i] == t[p + 1 + i].c; }
      assert IsDigit(s[k - p - 1]);
    }
  }

  lemma {:induction false} MarkMeaning(t: Text, p: nat, q: nat)
    requires p < |t| && p <= q
    ensures MarkAt(ContextAt(t, p), t[p..]) == Some(q - p) <==> IsMarker(t, p, q)
  {
    hide Candidate, DateShape, DateBody, Bracketed, Trim;
    CandidateMeaning(t, p, q);
    if Candidate(t[p..]) == Some(q - p) {
      assert p + 3 <= q <= |t|;
      assert t[p..][..q - p] == t[p..q] && t[p..q][1..q - p - 1] == t[p + 1..q - 1];
      assert q < |t| ==> t[p..][q - p] == t[q];
      DateMeaning(Body(t[p..q]));
    } else {
      var c := Candidate(t[p..]);
      assert c.Some? ==> MarkAt(ContextAt(t, p), t[p..]) != Some(q - p);
    }
  }

  /** Exactly the markers of a text from a position on, in order, each with what its body
      says. */
  ghost predicate ReadsFrom(t: Text, ms: seq<Marker>, from: nat) {
    && (forall i :: 0 <= i < |ms| ==> from <= ms[i].start && IsMarker(t, ms[i].start, ms[i].end))
    && (forall i, k :: 0 <= i < k < |ms| ==> ms[i].end <= ms[k].start)
    && (forall p: nat, q: nat :: from <= p && IsMarker(t, p, q) ==> exists i :: 0 <= i < |ms| && ms[i].start == p && ms[i].end == q)
    && (forall i :: 0 <= i < |ms| ==> Says(t, ms[i]))
  }

  ghost predicate Says(t: Text, m: Marker) {
    m.start + 2 <= m.end <= |t| &&
    var body := Chars(t[m.start + 1..m.end - 1]);
    m.indices == GroupIndices(body) && (m.compound <==> !AllDigits(body))
  }

  lemma {:induction false} NothingRead(t: Text, from: nat)
    requires forall p: nat, q: nat :: from <= p ==> !IsMarker(t, p, q)
    ensures ReadsFrom(t, [], from)
  {
    hide IsMarker;
  }

  lemma {:induction false} LaterRead(t: Text, from: nat, ms: seq<Marker>)
    requires ReadsFrom(t, ms, from + 1) && forall q: nat :: !IsMarker(t, from, q)
    ensures ReadsFrom(t, ms, from)
  {
    hide IsMarker, Says;
  }

  lemma {:induction false} MarkersRead(t: Text, from: nat)
    requires from <= |t|
    ensures ReadsFrom(t, MarkersFrom(t, from), from)
    decreases |t| - from
  {
    hide IsMarker, MarkAt, Says, ReadsFrom, MarkersFrom;
    if from == |t| {
      NoMarkerBehind(t, from);
      NothingFrom(t);
      NothingRead(t, from);
    } else {
      var m := MarkAt(ContextAt(t, from), t[from..]);
      if m.None? {
        PlainStep(t, from);
        NoneHere(t, from);
        MarkersRead(t, from + 1);
        LaterRead(t, from, MarkersFrom(t, from + 1));
      } else {
        var n := m.value;
        MarkStep(t, from, n);
        MarkMeaning(t, from, from + n);
        MarkersRead(t, from + n);
        FirstRead(t, from, n, MarkersFrom(t, from + n));
      }
    }
  }

  lemma {:induction false} NoneHere(t: Text, from: nat)
    requires from < |t| && MarkAt(ContextAt(t, from), t[from..]).None?
    ensures forall q: nat :: !IsMarker(t, from, q)
  {
    hide MarkAt;
    forall q: nat ensures !IsMarker(t, from, q) {
      if q >= from { MarkMeaning(t, from, q); }
    }
  }

  lemma {:induction false} NothingFrom(t: Text)
    ensures MarkersFrom(t, |t|) == []
  {
    assert t[|t|..] == [];
  }

  lemma {:induction false} NoMarkerBehind(t: Text, from: nat)
    requires from == |t|
    ensures forall p: nat, q: nat :: from <= p ==> !IsMarker(t, p, q)
  {
  }

  /** No marker starts inside another one. */
  lemma {:induction false} NoMarkerInside(t: Text, p: nat, q: nat, p': nat, q': nat)
    requires IsMarker(t, p, q) && p < p' < q
    ensures !IsMarker(t, p', q')
  {
    assert p' < q - 1 ==> InGroup(t[p'].c);
  }

  lemma {:induction false} OneEnd(t: Text, p: nat, q: nat, q': nat)
    requires IsMarker(t, p, q) && IsMarker(t, p, q')
    ensures q == q'
  {
    assert !InGroup(t[q - 1].c) && !InGroup(t[q' - 1].c);
  }

  lemma {:induction false} FirstRead(t: Text, from: nat, n: nat, ms: seq<Marker>)
    requires n >= 3 && from + n <= |t| && IsMarker(t, from, from + n) && ReadsFrom(t, ms, from + n)
    ensures var body := Body(t[from..from + n]);
      ReadsFrom(t, [Marker(from, from + n, GroupIndices(body), CompoundBody(body))] + ms, from)
  {
    hide IsMarker, GroupIndices, Says;
    var body := Body(t[from..from + n]);
    var m := Marker(from, from + n, GroupIndices(body), CompoundBody(body));
    var all := [m] + ms;
    FirstSays(t, from, n);
    forall p: nat, q: nat | from <= p && IsMarker(t, p, q) ensures exists i :: 0 <= i < |all| && all[i].start == p && all[i].end == q {
      if p == from {
        OneEnd(t, from, from + n, q);
        assert all[0] == m;
      } else {
        if p < from + n { NoMarkerInside(t, from, from + n, p, q); }
        var i :| 0 <= i < |ms| && ms[i].start == p && ms[i].end == q;
        assert all[i + 1] == ms[i];
      }
    }
  }

  lemma {:induction false} FirstSays(t: Text, from: nat, n: nat)
    requires n >= 3 && from + n <= |t|
    ensures var body := Body(t[from..from + n]); Says(t, Marker(from, from + n, GroupIndices(body), CompoundBody(body)))
  {
    var raw := t[from..from + n];
    assert |raw| == n && forall i :: 0 <= i < n ==> raw[i] == t[from + i];
    assert raw[1..n - 1] == t[from + 1..from + n - 1];
    assert AllDigits(Body(raw)) <==> AllDigits(Chars(t[from + 1..from + n - 1]));
  }

  /** Scan finds exactly the markers of the text, in order, with what their bodies say. */
  lemma {:induction false} ScanMeaning(t: Text)
    ensures ReadsFrom(t, MarkersOf(Scan(NEUTRAL, t), 0), 0)
  {
    MarkersRead(t, 0);
    assert t[0..] == t;
  }
}
