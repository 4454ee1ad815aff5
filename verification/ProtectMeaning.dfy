/** What Markdown protects, read off the text: lines of code, inline code, links and
    references (protectedSpans in citationtext/citation.go). */
module ProtectMeaning {
  import opened GoText
  import opened Markdown
  import opened LineMeaning
  import opened SpanMeaning
  import opened LinkMeaning

  /** Where line k starts. */
  function Offset(lines: seq<string>, k: nat): nat
    requires k <= |lines|
  {
    |Flatten(lines[..k])|
  }

  ghost predicate InLineOf(lines: seq<string>, k: nat, q: nat) {
    k < |lines| && Offset(lines, k) <= q < Offset(lines, k) + |lines[k]| && CodeLine(lines, k)
  }

  ghost predicate InCodeLine(s: string, q: nat) {
    exists k: nat :: InLineOf(Lines(s), k, q)
  }

  /** The lines of code, marked. */
  ghost function CodeLinesOf(s: string): (base: seq<bool>)
    ensures |base| == |s|
  {
    seq(|s|, q requires 0 <= q => InCodeLine(s, q))
  }

  ghost predicate InCode(s: string, q: nat) {
    InCodeLine(s, q) || InSpan(s, CodeLinesOf(s), q)
  }

  /** Lines of code, code spans in the other lines, and links and references outside both. */
  ghost predicate IsProtected(lower: CaseMap, s: string, q: nat) {
    InCode(s, q) || InLink(PageOfText(lower, s), q, |s|)
  }

  ghost function PageOfText(lower: CaseMap, s: string): (p: Page)
    ensures |p.base| == |p.s|
  {
    Page(lower, s, seq(|s|, q requires 0 <= q => InCode(s, q)), Definitions(lower, s))
  }

  // ----- Lines -----

  lemma {:induction false} OffsetNext(lines: seq<string>, k: nat)
    requires k < |lines|
    ensures Offset(lines, k + 1) == Offset(lines, k) + |lines[k]|
  {
    assert lines[..k + 1] == lines[..k] + [lines[k]];
    FlattenAppend(lines[..k], lines[k]);
  }

  lemma {:induction false} OffsetOrder(lines: seq<string>, k: nat, l: nat)
    requires k <= l <= |lines|
    ensures Offset(lines, k) <= Offset(lines, l)
    decreases l - k
  {
    if k < l {
      OffsetNext(lines, l - 1);
      OffsetOrder(lines, k, l - 1);
    }
  }

  /** The flags of the lines from k on, at the places of the text. */
  lemma {:induction false} FlagsAt(lines: seq<string>, k: nat, q: nat)
    requires k <= |lines| && Offset(lines, k) <= q < Offset(lines, |lines|)
    ensures var m := Flatten(LineFlags(lines)[k..]);
      q - Offset(lines, k) < |m| && (m[q - Offset(lines, k)] <==> exists l: nat :: InLineOf(lines, l, q))
    decreases |lines| - k
  {
    hide CodeLine, Offset;
    var flags := LineFlags(lines);
    assert flags[k..] == [flags[k]] + flags[k + 1..];
    FlattenCons(flags[k], flags[k + 1..]);
    OffsetNext(lines, k);
    if q < Offset(lines, k + 1) {
      OneLine(lines, k, q);
    } else {
      FlagsAt(lines, k + 1, q);
    }
  }

  lemma {:induction false} OneLine(lines: seq<string>, k: nat, q: nat)
    requires k < |lines| && Offset(lines, k) <= q < Offset(lines, k + 1)
    ensures CodeLine(lines, k) <==> exists l: nat :: InLineOf(lines, l, q)
  {
    hide CodeLine, Offset;
    OffsetNext(lines, k);
    if CodeLine(lines, k) {
      assert InLineOf(lines, k, q);
    }
    if l: nat :| InLineOf(lines, l, q) {
      OffsetNext(lines, l);
      if l < k { OffsetOrder(lines, l + 1, k); }
      if k < l { OffsetOrder(lines, k + 1, l); }
    }
  }

  lemma {:induction false} LineAt(s: string, q: nat)
    requires q < |s|
    ensures LineMask(s, START)[q] <==> InCodeLine(s, q)
  {
    hide LineMask, InLineOf, LineFlags;
    var lines := Lines(s);
    LineMaskMeaning(s);
    LinesMeaning(s);
    assert lines[..0] == [] && lines[..|lines|] == lines && LineFlags(lines)[0..] == LineFlags(lines);
    FlagsAt(lines, 0, q);
  }

  /** Neighbours on one line are masked together. */
  lemma {:induction false} SameLine(s: string, st: LineState, i: nat)
    requires i + 1 < |s| && s[i] != '\n'
    ensures LineMask(s, st)[i] == LineMask(s, st)[i + 1]
    decreases |s|
  {
    hide LineMasked, LineAfter;
    var n := LineLen(s);
    LineLenIs(s);
    if i >= n {
      SameLine(s[n..], LineAfter(st, s[..n]), i - n);
    } else {
      assert i + 1 != n by { if n < |s| { assert s[..n][n - 1] == s[n - 1]; } }
    }
  }

  // ----- The theorem -----

  lemma {:induction false} CodeLinesAre(s: string)
    ensures LineMask(s, START) == CodeLinesOf(s) && WholeRuns(s, CodeLinesOf(s))
  {
    hide LineMask, InCodeLine;
    forall q | 0 <= q < |s| ensures LineMask(s, START)[q] == CodeLinesOf(s)[q] { LineAt(s, q); }
    assert LineMask(s, START) == CodeLinesOf(s);
    forall i | 0 <= i < |s| - 1 && s[i] == '`' && s[i + 1] == '`' ensures LineMask(s, START)[i] == LineMask(s, START)[i + 1] {
      SameLine(s, START, i);
    }
  }

  lemma {:induction false} CodeIs(lower: CaseMap, s: string)
    ensures CodeMask(s) == PageOfText(lower, s).base
  {
    hide LineMask, SpanMask, CodeLinesOf, InCodeLine, InSpan;
    CodeLinesAre(s);
    forall q | 0 <= q < |s| ensures CodeMask(s)[q] <==> InCode(s, q) {
      SpanMaskMeaning(s, CodeLinesOf(s), q);
      LineAt(s, q);
    }
  }

  /** The protection of a text is exactly what its lines, backticks and brackets say. */
  lemma {:induction false} ProtectIsMeant(lower: CaseMap, s: string, q: nat)
    requires q < |s|
    ensures Protect(lower, s)[q] <==> IsProtected(lower, s, q)
    ensures CodeMask(s)[q] <==> InCode(s, q)
  {
    hide CodeMask, LinkMask, InCode, InLink;
    CodeIs(lower, s);
    LinkMaskMeaning(PageOfText(lower, s), q);
  }

  /** Ordinary text: no backtick or tilde, no indented line, no destination, no definition. */
  ghost predicate Ordinary(lower: CaseMap, s: string) {
    && (forall i :: 0 <= i < |s| ==> s[i] != '`' && s[i] != '~')
    && (forall k :: 0 <= k < |Lines(s)| ==> !Indented(Lines(s)[k]))
    && (forall i :: 0 <= i < |s| - 1 ==> !(s[i] == ']' && s[i + 1] == '('))
    && Definitions(lower, s) == {}
  }

  lemma {:induction false} InText(s: string, k: nat)
    requires k < |Lines(s)|
    ensures forall c :: c in Lines(s)[k] ==> c in s
    decreases |s|
  {
    var n := LineLen(s);
    assert Lines(s) == [s[..n]] + Lines(s[n..]);
    if k > 0 {
      InText(s[n..], k - 1);
    }
  }

  lemma {:induction false} NoFences(s: string, k: nat)
    requires k < |Lines(s)| && '`' !in s && '~' !in s
    ensures !Fenced(Lines(s), k)
  {
    hide TrimSpace, StaysOpen, Lines;
    var lines := Lines(s);
    forall i: nat, c, n: nat | i <= k ensures !OpensFence(lines, i, c, n) {
      InText(s, i);
      var left, right := TrimSpaceMeaning(lines[i]);
      if RunOf(TrimSpace(lines[i]), c, n) {
        assert lines[i][|left|] == TrimSpace(lines[i])[0];
        assert lines[i][|left|] in lines[i];
        assert c in s;
      }
    }
  }

  /** Ordinary text is not protected anywhere. */
  lemma {:induction false} OrdinaryIsFree(lower: CaseMap, s: string, q: nat)
    requires Ordinary(lower, s) && q < |s|
    ensures !Protect(lower, s)[q]
  {
    ProtectIsMeant(lower, s, q);
    var lines := Lines(s);
    hide Lines, Protect, Matches, CodeMask;
    forall k: nat | k < |lines| ensures !CodeLine(lines, k) {
      NoFences(s, k);
      assert !Indented(lines[k]);
      NoBlock(lines, k);
    }
    forall i: nat, k: nat ensures !SpanAt(s, CodeLinesOf(s), i, k) {}
    var p := PageOfText(lower, s);
    forall o: nat, c: nat | c < |s| && o < c && Matches(p, o, c) ensures !Covers(p, o, c, q) {
      ClosingBracket(p, o, c);
    }
  }

  lemma {:induction false} NoBlock(lines: seq<string>, k: nat)
    requires k < |lines| && !Indented(lines[k])
    ensures !IndentedBlock(lines, k)
  {
  }

  lemma {:induction false} ClosingBracket(p: Page, o: nat, c: nat)
    requires |p.base| == |p.s| && Matches(p, o, c)
    ensures c < |p.s| && p.s[c] == ']'
  {
  }
}
