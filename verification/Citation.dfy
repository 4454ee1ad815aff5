/** Citation markers in generated text (citationtext/citation.go): numeric groups such as
    [3], [1,2] or [4-7], how they are recognised, and their expansion to single markers.

    A text is a sequence of characters that carry whether Markdown protects them (code,
    links and the like). What an expansion writes carries no protection here; CitationRewrite
    says what deriving it again gives. */
module Citation {
  import opened GoText

  const MAX_GROUP_SIZE := 128
  const MAX_INDEX := 99999
  const MAX_EXPANSION_BYTES := 512000

  datatype Ch = Ch(c: char, protected: bool)
  type Text = seq<Ch>

  function Chars(t: Text): (s: string)
    ensures |s| == |t| && forall i :: 0 <= i < |t| ==> s[i] == t[i].c
  {
    seq(|t|, i requires 0 <= i < |t| => t[i].c)
  }

  function Unprotected(s: string): (t: Text)
    ensures |t| == |s| && forall i :: 0 <= i < |s| ==> t[i] == Ch(s[i], false)
  {
    seq(|s|, i requires 0 <= i < |s| => Ch(s[i], false))
  }

  predicate IsBlank(c: char) {
    c == ' ' || c == '\t'
  }

  predicate IsComma(c: char) {
    c == ',' || c == '\U{FF0C}'
  }

  predicate IsDash(c: char) {
    c == '-' || c == '\U{2013}' || c == '\U{2014}'
  }

  /** A character that may stand inside a group. */
  predicate InGroup(c: char) {
    IsDigit(c) || IsBlank(c) || IsComma(c) || IsDash(c) || c == ';' || c == '\U{FF1B}'
  }

  // ----- Reading a group body -----

  function TrimLeft(s: string): string {
    if s != [] && IsBlank(s[0]) then TrimLeft(s[1..]) else s
  }

  function TrimRight(s: string): string {
    if s != [] && IsBlank(s[|s| - 1]) then TrimRight(s[..|s| - 1]) else s
  }

  function Trim(s: string): string {
    TrimRight(TrimLeft(s))
  }

  function DigitRun(s: string): (n: nat)
    ensures n <= |s| && AllDigits(s[..n])
    ensures n < |s| ==> !IsDigit(s[n])
  {
    if s == [] || !IsDigit(s[0]) then 0 else
      var n := DigitRun(s[1..]);
      assert s[..n + 1] == [s[0]] + s[1..][..n];
      n + 1
  }

  /** One list item: a number, or an inclusive range of two numbers. */
  function Item(s: string): Option<(nat, nat)> {
    var n := DigitRun(s);
    if n == 0 then None
    else if n == |s| then Some((Atoi(s[..n]), Atoi(s[..n])))
    else
      var rest := TrimLeft(s[n..]);
      if rest == [] || !IsDash(rest[0]) then None
      else
        var upper := TrimLeft(rest[1..]);
        if upper != [] && AllDigits(upper) then Some((Atoi(s[..n]), Atoi(upper))) else None
  }

  function Parts(body: string): (parts: seq<string>)
    ensures parts != []
  {
    if body == [] then [""]
    else
      var rest := Parts(body[1..]);
      if IsComma(body[0]) then [""] + rest else [[body[0]] + rest[0]] + rest[1..]
  }

  function Range(first: nat, last: nat): (r: seq<nat>)
    requires first <= last
    ensures |r| == last - first + 1 && forall i :: 0 <= i < |r| ==> r[i] == first + i
  {
    seq(last - first + 1, i requires 0 <= i => first + i)
  }

  /** The indices of the parts, or none at all once a part is malformed or out of bounds. */
  function Indices(parts: seq<string>, found: seq<nat>): seq<nat> {
    if parts == [] then found
    else
      match Item(Trim(parts[0]))
      case None => []
      case Some((first, last)) =>
        if first < 1 || first > MAX_INDEX || last < first || last > MAX_INDEX || last - first + 1 > MAX_GROUP_SIZE - |found| then []
        else Indices(parts[1..], found + Range(first, last))
  }

  function GroupIndices(body: string): seq<nat> {
    Indices(Parts(body), [])
  }

  predicate WithinBounds(indices: seq<nat>) {
    |indices| <= MAX_GROUP_SIZE && forall i :: 0 <= i < |indices| ==> 1 <= indices[i] <= MAX_INDEX
  }

  /** Group expansion is bounded before it happens. */
  lemma {:induction false} IndicesBounded(parts: seq<string>, found: seq<nat>)
    requires WithinBounds(found)
    ensures WithinBounds(Indices(parts, found))
  {
    if parts != [] {
      match Item(Trim(parts[0]))
      case None =>
      case Some((first, last)) =>
        if !(first < 1 || first > MAX_INDEX || last < first || last > MAX_INDEX || last - first + 1 > MAX_GROUP_SIZE - |found|) {
          IndicesBounded(parts[1..], found + Range(first, last));
        }
    }
  }

  predicate DateShape(s: string) {
    && |s| == 10 && AllDigits(s[..4]) && IsDash(s[4]) && AllDigits(s[5..7]) && IsDash(s[7]) && AllDigits(s[8..])
  }

  /** Any separator makes a group compound. */
  predicate CompoundBody(body: string) {
    !AllDigits(body)
  }

  // ----- Recognising markers, left to right -----

  /** What the characters before a position say about it: a '!' right before it (an
      image), or an odd run of backslashes (an escape). */
  datatype Context = Context(bang: bool, escaped: bool)

  const NEUTRAL := Context(false, false)

  function After(ctx: Context, c: char): Context {
    Context(c == '!', c == '\\' && !ctx.escaped)
  }

  function BodyRun(t: Text): (n: nat)
    ensures n <= |t|
    ensures forall i :: 0 <= i < n ==> InGroup(t[i].c)
    ensures n < |t| ==> !InGroup(t[n].c)
  {
    if t == [] || !InGroup(t[0].c) then 0 else BodyRun(t[1..]) + 1
  }

  /** The bracket expression matched at the front: its length. */
  function Candidate(t: Text): (r: Option<nat>)
    ensures r.Some? ==> 3 <= r.value <= |t|
  {
    if t == [] || t[0].c != '[' then None
    else
      var n := BodyRun(t[1..]);
      var lead := TrimLeft(Chars(t[1..][..n]));
      if 1 + n < |t| && t[1 + n].c == ']' && lead != [] && IsDigit(lead[0]) then
        TrimLeftShorter(Chars(t[1..][..n]));
        Some(n + 2)
      else None
  }

  lemma {:induction false} TrimLeftShorter(s: string)
    ensures |TrimLeft(s)| <= |s|
  {
    if s != [] && IsBlank(s[0]) {
      TrimLeftShorter(s[1..]);
    }
  }

  function Body(raw: Text): string
    requires |raw| >= 2
  {
    Chars(raw[1..|raw| - 1])
  }

  /** The length of the marker at the front of t, if one is recognised there. */
  function MarkAt(ctx: Context, t: Text): (r: Option<nat>)
    ensures r.Some? ==> 3 <= r.value <= |t|
  {
    match Candidate(t)
    case None => None
    case Some(n) =>
      if t[0].protected || ctx.escaped || ctx.bang || (n < |t| && (t[n].c == '(' || t[n].c == ':'))
         || DateShape(Trim(Body(t[..n])))
      then None else Some(n)
  }

  datatype Atom = Plain(ch: Ch) | Mark(raw: Text, indices: seq<nat>, compound: bool)

  function MarkOf(raw: Text): Atom
    requires |raw| >= 2
  {
    Mark(raw, GroupIndices(Body(raw)), CompoundBody(Body(raw)))
  }

  /** Scan: the text cut into plain characters and markers. */
  function Scan(ctx: Context, t: Text): seq<Atom>
    decreases |t|
  {
    if t == [] then []
    else
      match MarkAt(ctx, t)
      case Some(n) => [MarkOf(t[..n])] + Scan(NEUTRAL, t[n..])
      case None => [Plain(t[0])] + Scan(After(ctx, t[0].c), t[1..])
  }

  function Render(a: seq<Atom>): Text {
    if a == [] then [] else RenderAtom(a[0]) + Render(a[1..])
  }

  function RenderAtom(a: Atom): Text {
    if a.Plain? then [a.ch] else a.raw
  }

  lemma {:induction false} RenderCons(a: Atom, rest: seq<Atom>)
    ensures Render([a] + rest) == RenderAtom(a) + Render(rest)
  {
    assert ([a] + rest)[1..] == rest;
  }

  lemma {:induction false} RenderScanMark(ctx: Context, t: Text, n: nat)
    requires t != [] && MarkAt(ctx, t) == Some(n) && Render(Scan(NEUTRAL, t[n..])) == t[n..]
    ensures Render(Scan(ctx, t)) == t
  {
    RenderCons(MarkOf(t[..n]), Scan(NEUTRAL, t[n..]));
    CutAt(t, n);
  }

  lemma {:induction false} RenderScanPlain(ctx: Context, t: Text)
    requires t != [] && MarkAt(ctx, t).None? && Render(Scan(After(ctx, t[0].c), t[1..])) == t[1..]
    ensures Render(Scan(ctx, t)) == t
  {
    RenderCons(Plain(t[0]), Scan(After(ctx, t[0].c), t[1..]));
  }

  lemma {:induction false} CutAt(t: Text, n: nat)
    requires n <= |t|
    ensures t == t[..n] + t[n..]
  {
  }

  lemma {:induction false} RenderScan(ctx: Context, t: Text)
    ensures Render(Scan(ctx, t)) == t
    decreases |t|
  {
    if t != [] {
      var m := MarkAt(ctx, t);
      if m.Some? {
        RenderScan(NEUTRAL, t[m.value..]);
        RenderScanMark(ctx, t, m.value);
      } else {
        RenderScan(After(ctx, t[0].c), t[1..]);
        RenderScanPlain(ctx, t);
      }
    }
  }

  lemma {:induction false} RenderAppend(a: seq<Atom>, b: seq<Atom>)
    ensures Render(a + b) == Render(a) + Render(b)
  {
    if a == [] {
      assert a + b == b;
    } else {
      assert (a + b)[1..] == a[1..] + b;
      RenderAppend(a[1..], b);
    }
  }

  // ----- Expansion -----

  /** Each index once, in order of first occurrence. */
  function Dedup(ns: seq<nat>): (r: seq<nat>)
    ensures ns != [] ==> r != []
    ensures forall n :: n in r <==> n in ns
    ensures forall i, j :: 0 <= i < j < |r| ==> r[i] != r[j]
  {
    if ns == [] then []
    else
      var front := Dedup(ns[..|ns| - 1]);
      assert ns == ns[..|ns| - 1] + [ns[|ns| - 1]];
      if ns[|ns| - 1] in front then front else front + [ns[|ns| - 1]]
  }

  /** Where an index first occurs. */
  function FirstAt(ns: seq<nat>, n: nat): (k: nat)
    requires n in ns
    ensures k < |ns| && ns[k] == n && n !in ns[..k]
  {
    if ns[0] == n then 0
    else
      assert ns == [ns[0]] + ns[1..];
      var k := FirstAt(ns[1..], n);
      assert ns[..k + 1] == [ns[0]] + ns[1..][..k];
      k + 1
  }

  lemma {:induction false} FirstIs(ns: seq<nat>, n: nat, k: nat)
    requires k < |ns| && ns[k] == n && n !in ns[..k]
    ensures FirstAt(ns, n) == k
  {
    if k > 0 {
      assert ns[..k][0] == ns[0];
      assert ns[..k] == [ns[0]] + ns[1..][..k - 1];
      FirstIs(ns[1..], n, k - 1);
    }
  }

  lemma {:induction false} FirstAtPrefix(ns: seq<nat>, last: nat, n: nat)
    requires n in ns
    ensures n in ns + [last] && FirstAt(ns + [last], n) == FirstAt(ns, n)
  {
    var k := FirstAt(ns, n);
    assert (ns + [last])[k] == ns[k] && (ns + [last])[..k] == ns[..k];
    FirstIs(ns + [last], n, k);
  }

  /** Dedup keeps the order of first occurrence. */
  lemma {:induction false} DedupInOrder(ns: seq<nat>, i: nat, j: nat)
    requires i < j < |Dedup(ns)|
    ensures FirstAt(ns, Dedup(ns)[i]) < FirstAt(ns, Dedup(ns)[j])
  {
    var front, last := ns[..|ns| - 1], ns[|ns| - 1];
    assert ns == front + [last];
    var d := Dedup(front);
    FirstAtPrefix(front, last, d[i]);
    if j < |d| {
      DedupInOrder(front, i, j);
      FirstAtPrefix(front, last, d[j]);
    } else {
      assert Dedup(ns)[j] == last && last !in front;
      assert ns[..|front|] == front;
      FirstIs(ns, last, |front|);
    }
  }

  function Single(n: nat): Atom {
    Mark(Unprotected("[" + Itoa(n) + "]"), [n], false)
  }

  function Singles(ns: seq<nat>): (r: seq<Atom>)
    ensures |r| == |ns| && forall i :: 0 <= i < |ns| ==> r[i] == Single(ns[i])
  {
    seq(|ns|, i requires 0 <= i < |ns| => Single(ns[i]))
  }

  /** Expansion of a chosen set of groups. */
  function ExpandBy(a: seq<Atom>, pick: seq<bool>): seq<Atom>
    requires |pick| == |a|
  {
    if a == [] then []
    else (if pick[0] && a[0].Mark? then Singles(Dedup(a[0].indices)) else [a[0]]) + ExpandBy(a[1..], pick[1..])
  }

  predicate Expandable(a: seq<Atom>, pick: seq<bool>) {
    |pick| == |a| && forall i :: 0 <= i < |a| && pick[i] ==> a[i].Mark? && a[i].indices != []
  }

  // ----- Recognition is local, so expansion does not disturb it -----

  /** Two texts agree up to the end or up to an opening bracket in both. */
  predicate AgreeTo(u: Text, v: Text, k: nat) {
    && k <= |u| && k <= |v| && u[..k] == v[..k]
    && ((k == |u| && k == |v|) || (k < |u| && k < |v| && u[k].c == '[' && v[k].c == '['))
  }

  lemma {:induction false} BodyRunAgrees(u: Text, v: Text, k: nat)
    requires AgreeTo(u, v, k)
    ensures BodyRun(u) == BodyRun(v) <= k
  {
    if k > 0 {
      assert u[0] == u[..k][0] && v[0] == v[..k][0];
      assert u[1..][..k - 1] == u[..k][1..] && v[1..][..k - 1] == v[..k][1..];
      BodyRunAgrees(u[1..], v[1..], k - 1);
    }
  }

  /** A decision at a character looks no further than the next opening bracket. */
  lemma {:induction false} MarkAgrees(ctx: Context, ch: Ch, u: Text, v: Text, k: nat)
    requires AgreeTo(u, v, k)
    ensures MarkAt(ctx, [ch] + u) == MarkAt(ctx, [ch] + v)
    ensures MarkAt(ctx, [ch] + u).Some? ==> var n := MarkAt(ctx, [ch] + u).value; n - 1 <= k && ([ch] + u)[..n] == ([ch] + v)[..n]
  {
    hide DateShape, BodyRun, Trim;
    BodyRunAgrees(u, v, k);
    var s, t := [ch] + u, [ch] + v;
    assert s[1..] == u && t[1..] == v;
    var n := BodyRun(u);
    assert u[..n] == u[..k][..n] && v[..n] == v[..k][..n];
    if n < k {
      assert u[n] == u[..k][n] && v[n] == v[..k][n];
      assert u[..n + 1] == u[..k][..n + 1] && v[..n + 1] == v[..k][..n + 1];
      assert s[..n + 2] == [ch] + u[..n + 1] && t[..n + 2] == [ch] + v[..n + 1];
      if n + 1 < k {
        assert u[n + 1] == u[..k][n + 1] && v[n + 1] == v[..k][n + 1];
      }
    }
  }

  // ----- A single marker is read back as itself -----

  lemma {:induction false} DigitsTrim(s: string)
    requires AllDigits(s)
    ensures TrimLeft(s) == s && TrimRight(s) == s && Trim(s) == s
  {
  }

  lemma {:induction false} DigitsParts(s: string)
    requires AllDigits(s)
    ensures Parts(s) == [s]
  {
    if s != [] {
      DigitsParts(s[1..]);
      assert [s[0]] + s[1..] == s;
    }
  }

  lemma {:induction false} DigitsRun(s: string)
    requires AllDigits(s)
    ensures DigitRun(s) == |s|
  {
    if s != [] {
      DigitsRun(s[1..]);
    }
  }

  lemma {:induction false} SingleIndices(n: nat)
    requires 1 <= n <= MAX_INDEX
    ensures GroupIndices(Itoa(n)) == [n]
  {
    var d := Itoa(n);
    DigitsParts(d);
    DigitsTrim(d);
    DigitsRun(d);
    AtoiItoa(n);
    assert d[..|d|] == d;
    assert Item(Trim(d)) == Some((n, n));
    var none: seq<string> := [];
    assert [d][1..] == none && [] + Range(n, n) == [n];
    assert Indices([d], []) == Indices(none, [n]);
  }

  lemma {:induction false} BodyRunOfDigits(d: string, v: Text)
    requires AllDigits(d) && v != [] && !InGroup(v[0].c)
    ensures BodyRun(Unprotected(d) + v) == |d|
  {
    var t := Unprotected(d) + v;
    if d == [] {
      assert t == v;
    } else {
      assert t[1..] == Unprotected(d[1..]) + v;
      BodyRunOfDigits(d[1..], v);
    }
  }

  lemma {:induction false} SingleCandidate(n: nat, v: Text)
    ensures Candidate(Single(n).raw + v) == Some(|Single(n).raw|) && Body(Single(n).raw) == Itoa(n)
  {
    var d, raw := Itoa(n), Single(n).raw;
    var t := raw + v;
    var close := [Ch(']', false)] + v;
    assert t[1..] == Unprotected(d) + close;
    BodyRunOfDigits(d, close);
    assert Chars(t[1..][..|d|]) == d;
    DigitsTrim(d);
    assert Chars(raw[1..|raw| - 1]) == d;
  }

  predicate NotLink(v: Text) {
    v == [] || (v[0].c != '(' && v[0].c != ':')
  }

  lemma {:induction false} SingleMark(ctx: Context, n: nat, v: Text)
    requires 1 <= n <= MAX_INDEX && !ctx.bang && !ctx.escaped && NotLink(v)
    ensures MarkAt(ctx, Single(n).raw + v) == Some(|Single(n).raw|)
    ensures MarkOf(Single(n).raw) == Single(n)
  {
    var raw := Single(n).raw;
    SingleCandidate(n, v);
    SingleIndices(n);
    DigitsTrim(Itoa(n));
    assert (raw + v)[..|raw|] == raw;
    assert v != [] ==> (raw + v)[|raw|] == v[0];
  }

  lemma {:induction false} SinglesScan(ctx: Context, ns: seq<nat>, v: Text)
    requires ns != [] && IndicesInRange(ns) && !ctx.bang && !ctx.escaped && NotLink(v)
    ensures Scan(ctx, Render(Singles(ns)) + v) == Singles(ns) + Scan(NEUTRAL, v)
  {
    var rest := ns[1..];
    var w := Render(Singles(rest)) + v;
    SinglesCons(ns, v);
    if rest == [] {
      assert w == v;
    } else {
      SinglesCons(rest, v);
      SinglesScan(NEUTRAL, rest, v);
    }
    SingleScan(ctx, ns[0], w);
    ConcatAssoc([Single(ns[0])], Singles(rest), Scan(NEUTRAL, v));
  }

  lemma {:induction false} SinglesCons(ns: seq<nat>, v: Text)
    requires ns != []
    ensures Singles(ns) == [Single(ns[0])] + Singles(ns[1..])
    ensures Render(Singles(ns)) + v == Single(ns[0]).raw + (Render(Singles(ns[1..])) + v)
    ensures NotLink(Render(Singles(ns)) + v)
  {
    assert Singles(ns) == [Single(ns[0])] + Singles(ns[1..]);
    RenderCons(Single(ns[0]), Singles(ns[1..]));
    ConcatAssoc(Single(ns[0]).raw, Render(Singles(ns[1..])), v);
    assert (Render(Singles(ns)) + v)[0].c == '[';
  }

  lemma {:induction false} SingleScan(ctx: Context, n: nat, w: Text)
    requires 1 <= n <= MAX_INDEX && !ctx.bang && !ctx.escaped && NotLink(w)
    ensures Scan(ctx, Single(n).raw + w) == [Single(n)] + Scan(NEUTRAL, w)
  {
    SingleMark(ctx, n, w);
    ScanOfMark(ctx, Single(n).raw, w);
  }

  /** Every index is one Scan can yield. */
  predicate IndicesInRange(ns: seq<nat>) {
    forall i :: 0 <= i < |ns| ==> 1 <= ns[i] <= MAX_INDEX
  }

  lemma {:induction false} ScanOfMark(ctx: Context, raw: Text, v: Text)
    requires MarkAt(ctx, raw + v) == Some(|raw|)
    ensures Scan(ctx, raw + v) == [MarkOf(raw)] + Scan(NEUTRAL, v)
  {
    assert (raw + v)[..|raw|] == raw && (raw + v)[|raw|..] == v;
  }

  lemma {:induction false} ScanOfPlain(ctx: Context, ch: Ch, v: Text)
    requires MarkAt(ctx, [ch] + v).None?
    ensures Scan(ctx, [ch] + v) == [Plain(ch)] + Scan(After(ctx, ch.c), v)
  {
    assert ([ch] + v)[1..] == v;
  }

  // ----- Rescanning -----

  /** The cut that Scan makes of the text it renders. */
  ghost predicate Canonical(ctx: Context, a: seq<Atom>) {
    Scan(ctx, Render(a)) == a
  }

  function HeadContext(ctx: Context, h: Atom): Context {
    if h.Plain? then After(ctx, h.ch.c) else NEUTRAL
  }

  /** What a canonical cut says about its first atom. */
  lemma {:induction false} CanonicalHead(ctx: Context, a: seq<Atom>)
    requires Canonical(ctx, a) && a != []
    ensures Canonical(HeadContext(ctx, a[0]), a[1..])
    ensures Render(a) == RenderAtom(a[0]) + Render(a[1..])
    ensures a[0].Plain? ==> MarkAt(ctx, Render(a)).None?
    ensures a[0].Mark? ==> |a[0].raw| >= 3 && a[0] == MarkOf(a[0].raw) && MarkAt(ctx, Render(a)) == Some(|a[0].raw|)
  {
    var t := Render(a);
    if t != [] {
      var m := MarkAt(ctx, t);
      if m.Some? {
        RenderScan(NEUTRAL, t[m.value..]);
        assert a == [MarkOf(t[..m.value])] + Scan(NEUTRAL, t[m.value..]);
      } else {
        RenderScan(After(ctx, t[0].c), t[1..]);
        assert a == [Plain(t[0])] + Scan(After(ctx, t[0].c), t[1..]);
      }
    }
  }

  lemma {:induction false} MarkFacts(ctx: Context, raw: Text, v: Text)
    requires MarkAt(ctx, raw + v) == Some(|raw|)
    ensures raw != [] && raw[0].c == '[' && !raw[0].protected && !ctx.bang && !ctx.escaped && NotLink(v)
  {
    assert v != [] ==> (raw + v)[|raw|] == v[0];
  }

  /** Leading plain characters. */
  function Lead(a: seq<Atom>): (n: nat)
    ensures n <= |a|
  {
    if a == [] || a[0].Mark? then 0 else Lead(a[1..]) + 1
  }

  lemma {:induction false} ExpansionAgrees(ctx: Context, a: seq<Atom>, pick: seq<bool>)
    requires Canonical(ctx, a) && Expandable(a, pick)
    ensures AgreeTo(Render(a), Render(ExpandBy(a, pick)), Lead(a))
    decreases a
  {
    if a != [] {
      CanonicalHead(ctx, a);
      var rest := ExpandBy(a[1..], pick[1..]);
      if a[0].Plain? {
        ExpansionAgrees(After(ctx, a[0].ch.c), a[1..], pick[1..]);
        RenderCons(a[0], rest);
        AgreeCons(a[0].ch, Render(a[1..]), Render(rest), Lead(a[1..]));
      } else {
        MarkFacts(ctx, a[0].raw, Render(a[1..]));
        ExpandedHead(a[0], pick[0], rest);
      }
    }
  }

  lemma {:induction false} AgreeCons(ch: Ch, u: Text, v: Text, k: nat)
    requires AgreeTo(u, v, k)
    ensures AgreeTo([ch] + u, [ch] + v, k + 1)
  {
    assert ([ch] + u)[..k + 1] == [ch] + u[..k] && ([ch] + v)[..k + 1] == [ch] + v[..k];
  }

  lemma {:induction false} AgreePrefix(p: Text, u: Text, v: Text, k: nat)
    requires AgreeTo(u, v, k)
    ensures AgreeTo(p + u, p + v, |p| + k)
  {
    assert (p + u)[..|p| + k] == p + u[..k] && (p + v)[..|p| + k] == p + v[..k];
  }

  /** An expanded marker starts with a bracket, like the marker. */
  lemma {:induction false} ExpandedHead(m: Atom, picked: bool, rest: seq<Atom>)
    requires m.Mark? && m.raw != [] && m.raw[0].c == '[' && (picked ==> m.indices != [])
    ensures var out := Render((if picked then Singles(Dedup(m.indices)) else [m]) + rest); out != [] && out[0].c == '['
  {
    if picked {
      var s := Singles(Dedup(m.indices));
      assert s + rest == [s[0]] + (s[1..] + rest);
      RenderCons(s[0], s[1..] + rest);
    } else {
      RenderCons(m, rest);
    }
  }

  /** Re-reading an expanded text finds exactly the expanded markers: the singles written
      in place of a group, and every other marker and character as before. */
  lemma {:induction false} Rescan(ctx: Context, a: seq<Atom>, pick: seq<bool>)
    requires Canonical(ctx, a) && Expandable(a, pick)
    ensures Canonical(ctx, ExpandBy(a, pick))
    decreases a
  {
    if a != [] {
      CanonicalHead(ctx, a);
      var rest, out := a[1..], ExpandBy(a[1..], pick[1..]);
      var ctx' := HeadContext(ctx, a[0]);
      Rescan(ctx', rest, pick[1..]);
      ExpansionAgrees(ctx', rest, pick[1..]);
      if a[0].Plain? {
        MarkAgrees(ctx, a[0].ch, Render(rest), Render(out), Lead(rest));
        RenderCons(a[0], out);
        ScanOfPlain(ctx, a[0].ch, Render(out));
      } else if !pick[0] {
        RescanKept(ctx, a[0], rest, out);
      } else {
        RescanPicked(ctx, a[0], rest, out);
      }
    }
  }

  /** A marker stays one when the text after it changes beyond the next bracket. */
  lemma {:induction false} MarkerStays(ctx: Context, raw: Text, u: Text, v: Text, k: nat)
    requires raw != [] && MarkAt(ctx, raw + u) == Some(|raw|) && AgreeTo(u, v, k)
    ensures MarkAt(ctx, raw + v) == Some(|raw|)
  {
    hide MarkAt;
    var tail := raw[1..];
    AgreePrefix(tail, u, v, k);
    assert [raw[0]] + (tail + u) == raw + u && [raw[0]] + (tail + v) == raw + v;
    MarkAgrees(ctx, raw[0], tail + u, tail + v, |tail| + k);
  }

  lemma {:induction false} CanonicalMark(ctx: Context, m: Atom, out: seq<Atom>)
    requires m.Mark? && |m.raw| >= 3 && m == MarkOf(m.raw) && MarkAt(ctx, m.raw + Render(out)) == Some(|m.raw|)
    requires Canonical(NEUTRAL, out)
    ensures Canonical(ctx, [m] + out)
  {
    RenderCons(m, out);
    ScanOfMark(ctx, m.raw, Render(out));
  }

  lemma {:induction false} RescanKept(ctx: Context, m: Atom, rest: seq<Atom>, out: seq<Atom>)
    requires m.Mark? && |m.raw| >= 3 && m == MarkOf(m.raw) && MarkAt(ctx, m.raw + Render(rest)) == Some(|m.raw|)
    requires AgreeTo(Render(rest), Render(out), Lead(rest)) && Canonical(NEUTRAL, out)
    ensures Canonical(ctx, [m] + out)
  {
    MarkerStays(ctx, m.raw, Render(rest), Render(out), Lead(rest));
    CanonicalMark(ctx, m, out);
  }

  /** The indices of a recognised group are within bounds, and so are their singles. */
  lemma {:induction false} MarkBounded(raw: Text)
    requires |raw| >= 2
    ensures WithinBounds(MarkOf(raw).indices) && IndicesInRange(Dedup(MarkOf(raw).indices))
  {
    IndicesBounded(Parts(Body(raw)), []);
    var ns := MarkOf(raw).indices;
    forall i | 0 <= i < |Dedup(ns)| ensures 1 <= Dedup(ns)[i] <= MAX_INDEX {
      assert Dedup(ns)[i] in ns;
    }
  }

  lemma {:induction false} RescanPicked(ctx: Context, m: Atom, rest: seq<Atom>, out: seq<Atom>)
    requires m.Mark? && |m.raw| >= 3 && m == MarkOf(m.raw) && MarkAt(ctx, m.raw + Render(rest)) == Some(|m.raw|)
    requires m.indices != []
    requires AgreeTo(Render(rest), Render(out), Lead(rest)) && Canonical(NEUTRAL, out)
    ensures Canonical(ctx, Singles(Dedup(m.indices)) + out)
  {
    MarkFacts(ctx, m.raw, Render(rest));
    MarkBounded(m.raw);
    AgreeNotLink(Render(rest), Render(out), Lead(rest));
    SinglesScan(ctx, Dedup(m.indices), Render(out));
    RenderAppend(Singles(Dedup(m.indices)), out);
  }

  lemma {:induction false} AgreeNotLink(u: Text, v: Text, k: nat)
    requires AgreeTo(u, v, k) && NotLink(u)
    ensures NotLink(v)
  {
    if k > 0 {
      assert u[0] == u[..k][0] && v[0] == v[..k][0];
    }
  }
}
