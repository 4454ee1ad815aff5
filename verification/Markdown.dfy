/** Which characters of a text Markdown keeps from being citations (protectedSpans in
    citationtext/citation.go): fenced and indented code, code spans, link labels and link
    destinations, and brackets that name a reference definition. */
module Markdown {
  import opened GoText

  function AsciiLower(c: char): char {
    if 'A' <= c <= 'Z' then (c as int + 32) as char else c
  }

  /** unicode.ToLower: exact on ASCII; elsewhere any map that produces no bracket. */
  ghost predicate Folds(lower: char -> char) {
    forall c: char :: if c as int < 0x80 then lower(c) == AsciiLower(c) else lower(c) != ']'
  }

  type CaseMap = lower: char -> char | Folds(lower) witness AsciiLower

  /** strings.ToLower. */
  function Lower(lower: CaseMap, s: string): (r: string)
    ensures |r| == |s|
  {
    seq(|s|, i requires 0 <= i < |s| => lower(s[i]))
  }

  /** escaped: an odd run of backslashes right before pos. */
  predicate Escaped(s: string, pos: nat)
    requires pos <= |s|
  {
    pos > 0 && s[pos - 1] == '\\' && !Escaped(s, pos - 1)
  }

  /** strings.TrimSpace. */
  function TrimSpaceLeft(s: string): string {
    if s != [] && IsSpace(s[0]) then TrimSpaceLeft(s[1..]) else s
  }

  function TrimSpaceRight(s: string): string {
    if s != [] && IsSpace(s[|s| - 1]) then TrimSpaceRight(s[..|s| - 1]) else s
  }

  function TrimSpace(s: string): string {
    TrimSpaceRight(TrimSpaceLeft(s))
  }

  function CharRun(s: string, c: char): (n: nat)
    ensures n <= |s| && forall i :: 0 <= i < n ==> s[i] == c
    ensures n < |s| ==> s[n] != c
  {
    if s != [] && s[0] == c then 1 + CharRun(s[1..], c) else 0
  }

  function Flags(n: nat, flag: bool): (m: seq<bool>)
    ensures |m| == n && forall i :: 0 <= i < n ==> m[i] == flag
  {
    seq(n, i => flag)
  }

  // ----- Lines: fences and indented code -----

  /** The first line, with its terminator. */
  function LineLen(s: string): (n: nat)
    ensures n <= |s| && (s != [] ==> n >= 1)
  {
    if s == [] then 0 else if s[0] == '\n' then 1 else 1 + LineLen(s[1..])
  }

  /** The indentation of a raw line: leading blanks and tabs. */
  function Indent(raw: string): (n: nat)
    ensures n <= |raw|
  {
    if raw != [] && (raw[0] == ' ' || raw[0] == '\t') then 1 + Indent(raw[1..]) else 0
  }

  function DigitsAhead(s: string): (n: nat)
    ensures n <= |s|
  {
    if s != [] && IsDigit(s[0]) then 1 + DigitsAhead(s[1..]) else 0
  }

  predicate BlankAt(s: string, i: nat) {
    i < |s| && (s[i] == ' ' || s[i] == '\t')
  }

  /** A list marker followed by a blank. */
  predicate ListStart(line: string) {
    line != [] &&
    if line[0] in "-+*" then BlankAt(line, 1)
    else
      var n := DigitsAhead(line);
      0 < n < |line| && line[n] in ".)" && BlankAt(line, n + 1)
  }

  /** The run of backticks or tildes a trimmed line starts with. */
  function FenceRun(line: string): (n: nat)
    ensures n <= |line| && (n > 0 ==> line[0] in "`~")
  {
    if line != [] && line[0] in "`~" then CharRun(line, line[0]) else 0
  }

  datatype Fence = Fence(c: char, len: nat)

  /** What the lines so far say: the open fence, whether a list is open, whether the last
      line was blank, and whether it was protected (false at the start). */
  datatype LineState = LineState(fence: Option<Fence>, inList: bool, previousBlank: bool, previousMasked: bool)

  const START := LineState(None, false, true, false)

  function ListAfter(st: LineState, raw: string): bool {
    var line := TrimSpace(raw);
    if ListStart(line) then true else if line != [] && Indent(raw) == 0 then false else st.inList
  }

  predicate IndentedCode(st: LineState, raw: string) {
    !ListAfter(st, raw) && (st.previousBlank || st.previousMasked) && (HasPrefix(raw, "    ") || HasPrefix(raw, "\t"))
  }

  predicate LineMasked(st: LineState, raw: string) {
    st.fence.Some? || FenceRun(TrimSpace(raw)) >= 3 || IndentedCode(st, raw)
  }

  function FenceAfter(st: LineState, raw: string): Option<Fence> {
    var line := TrimSpace(raw);
    var run := FenceRun(line);
    match st.fence
    case Some(f) => if run > 0 && run >= f.len && line[0] == f.c && TrimSpace(line[run..]) == [] then None else st.fence
    case None => if run >= 3 then Some(Fence(line[0], run)) else None
  }

  function LineAfter(st: LineState, raw: string): LineState {
    LineState(FenceAfter(st, raw), ListAfter(st, raw), TrimSpace(raw) == [], LineMasked(st, raw))
  }

  function LineMask(s: string, st: LineState): (m: seq<bool>)
    ensures |m| == |s|
    decreases |s|
  {
    if s == [] then []
    else
      var n := LineLen(s);
      Flags(n, LineMasked(st, s[..n])) + LineMask(s[n..], LineAfter(st, s[..n]))
  }

  // ----- Code spans -----

  function Ticks(s: string, i: nat): (n: nat)
    requires i <= |s|
    ensures i + n <= |s| && forall k :: i <= k < i + n ==> s[k] == '`'
    ensures i < |s| && s[i] == '`' ==> n >= 1
    decreases |s| - i
  {
    if i < |s| && s[i] == '`' then 1 + Ticks(s, i + 1) else 0
  }

  /** The end of the next unmasked run of exactly n backticks from j on. */
  function CloseTicks(s: string, base: seq<bool>, j: nat, n: nat): (r: Option<nat>)
    requires |base| == |s| && j <= |s|
    ensures r.Some? ==> j <= r.value <= |s|
    decreases |s| - j
  {
    if j == |s| then None
    else if base[j] || s[j] != '`' then CloseTicks(s, base, j + 1, n)
    else
      var k := j + Ticks(s, j);
      if k - j == n then Some(k) else CloseTicks(s, base, k, n)
  }

  predicate SpanStarts(s: string, base: seq<bool>, i: nat)
    requires |base| == |s| && i < |s|
  {
    !base[i] && s[i] == '`' && !Escaped(s, i)
  }

  /** What the scan for code spans writes at i: a closed span, or one character. An
      unclosed run is retried one backtick shorter. */
  function SpanFlags(s: string, base: seq<bool>, i: nat): (flags: seq<bool>)
    requires |base| == |s| && i < |s|
    ensures 1 <= |flags| <= |s| - i
  {
    if !SpanStarts(s, base, i) then [base[i]]
    else
      var n := Ticks(s, i);
      match CloseTicks(s, base, i + n, n)
      case None => [base[i]]
      case Some(k) => Flags(k - i, true)
  }

  /** The mask from i on with code spans in it. */
  function SpanMask(s: string, base: seq<bool>, i: nat): (m: seq<bool>)
    requires |base| == |s| && i <= |s|
    ensures |m| == |s| - i
    decreases |s| - i
  {
    if i == |s| then []
    else
      var flags := SpanFlags(s, base, i);
      flags + SpanMask(s, base, i + |flags|)
  }

  // ----- Reference definitions -----

  /** The length of a label: what stands before the next ']' or the line's end. */
  function LabelLen(s: string): (n: nat)
    ensures n <= |s| && forall i :: 0 <= i < n ==> s[i] != ']' && s[i] != '\n'
    ensures n < |s| ==> s[n] == ']' || s[n] == '\n'
  {
    if s == [] || s[0] == ']' || s[0] == '\n' then 0 else 1 + LabelLen(s[1..])
  }

  /** The label a line defines: up to three blanks, a bracketed label, a colon. */
  function DefinedBy(raw: string): Option<string> {
    var i := CharRun(raw, ' ');
    if i > 3 || i >= |raw| || raw[i] != '[' then None else LabelIn(raw[i + 1..])
  }

  /** The label in front of "]:". */
  function LabelIn(t: string): Option<string> {
    var n := LabelLen(t);
    if n > 0 && n + 1 < |t| && t[n] == ']' && t[n + 1] == ':' then Some(t[..n]) else None
  }

  function LabelOf(lower: CaseMap, raw: string): set<string> {
    var defined := DefinedBy(raw);
    if defined.Some? then {Lower(lower, defined.value)} else {}
  }

  function Definitions(lower: CaseMap, s: string): set<string>
    decreases |s|
  {
    if s == [] then {}
    else
      var n := LineLen(s);
      LabelOf(lower, s[..n]) + Definitions(lower, s[n..])
  }

  // ----- Links -----

  /** The end of a link destination whose nesting at k is n, or the end of the text. */
  function CloseParen(s: string, k: nat, n: nat): (r: nat)
    requires k <= |s|
    ensures k <= r <= |s|
    decreases |s| - k
  {
    if k == |s| || n == 0 then k
    else if Escaped(s, k) then CloseParen(s, k + 1, n)
    else if s[k] == '(' then CloseParen(s, k + 1, n + 1)
    else if s[k] == ')' then CloseParen(s, k + 1, n - 1)
    else CloseParen(s, k + 1, n)
  }

  /** The nearest unescaped '[' before k on the same line. */
  function OpenBefore(s: string, k: nat): (r: Option<nat>)
    requires k <= |s|
    ensures r.Some? ==> r.value < k && s[r.value] == '['
  {
    if k == 0 || s[k - 1] == '\n' then None
    else if s[k - 1] == '[' && !Escaped(s, k - 1) then Some(k - 1)
    else OpenBefore(s, k - 1)
  }

  /** Where protection starts for a bracket that names a definition: at the label before it
      in [label][reference], else at the bracket. */
  function ReferenceStart(s: string, start: nat): (r: nat)
    requires start <= |s|
    ensures r <= start
  {
    if start > 0 && s[start - 1] == ']' then
      match OpenBefore(s, start - 1)
      case Some(k) => k
      case None => start
    else start
  }

  ghost predicate Opens(opens: seq<nat>, i: nat) {
    forall k :: 0 <= k < |opens| ==> opens[k] < i
  }

  /** One turn of the bracket scan: where it goes on, its stack, and the mask so far. */
  datatype Turn = Turn(next: nat, opens: seq<nat>, done: seq<bool>)

  function MarkFrom(done: seq<bool>, from: nat, end: nat): (m: seq<bool>)
    requires from <= |done| && from <= end
    ensures |m| == end
  {
    done[..from] + Flags(end - from, true)
  }

  /** A text with its code mask and its reference labels. */
  datatype Page = Page(lower: CaseMap, s: string, base: seq<bool>, defs: set<string>)

  /** The bracket opened at start closes at i: a link with its destination, a reference, or
      neither. */
  function CloseTurn(p: Page, i: nat, start: nat, rest: seq<nat>, done: seq<bool>): (t: Turn)
    requires |p.base| == |p.s| && |done| == i < |p.s| && start < i && Opens(rest, i)
    ensures i < t.next <= |p.s| && |t.done| == t.next && Opens(t.opens, t.next)
  {
    if i + 1 < |p.s| && p.s[i + 1] == '(' then
      var k := CloseParen(p.s, i + 2, 1);
      Turn(k, rest, MarkFrom(done, start, k))
    else if Lower(p.lower, p.s[start + 1..i]) in p.defs then Turn(i + 1, rest, MarkFrom(done, ReferenceStart(p.s, start), i + 1))
    else Turn(i + 1, rest, done + [p.base[i]])
  }

  function LinkTurn(p: Page, i: nat, opens: seq<nat>, done: seq<bool>): (t: Turn)
    requires |p.base| == |p.s| && |done| == i < |p.s| && Opens(opens, i)
    ensures i < t.next <= |p.s| && |t.done| == t.next && Opens(t.opens, t.next)
  {
    var plain := done + [p.base[i]];
    if p.base[i] || Escaped(p.s, i) then Turn(i + 1, opens, plain)
    else if p.s[i] == '[' then Turn(i + 1, opens + [i], plain)
    else if p.s[i] != ']' || opens == [] then Turn(i + 1, opens, plain)
    else CloseTurn(p, i, opens[|opens| - 1], opens[..|opens| - 1], done)
  }

  /** The finished mask, from turn to turn; a link or reference marks back to its label. */
  function LinkMask(p: Page, i: nat, opens: seq<nat>, done: seq<bool>): (m: seq<bool>)
    requires |p.base| == |p.s| && |done| == i <= |p.s| && Opens(opens, i)
    ensures |m| == |p.s|
    decreases |p.s| - i
  {
    if i == |p.s| then done
    else
      var t := LinkTurn(p, i, opens, done);
      LinkMask(p, t.next, t.opens, t.done)
  }

  /** Code of every kind. */
  function CodeMask(s: string): (m: seq<bool>)
    ensures |m| == |s|
  {
    SpanMask(s, LineMask(s, START), 0)
  }

  function Protect(lower: CaseMap, s: string): (m: seq<bool>)
    ensures |m| == |s|
  {
    LinkMask(Page(lower, s, CodeMask(s), Definitions(lower, s)), 0, [], [])
  }
}
