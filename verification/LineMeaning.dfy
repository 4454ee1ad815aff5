/** Which lines of a text are code (the first loop of protectedSpans in
    citationtext/citation.go), read off the lines themselves. */
module LineMeaning {
  import opened GoText
  import opened Markdown

  // ----- Lines -----

  /** The lines, each with its terminator. */
  function Lines(s: string): seq<string>
    decreases |s|
  {
    if s == [] then [] else [s[..LineLen(s)]] + Lines(s[LineLen(s)..])
  }

  predicate IsLine(line: string, last: bool) {
    && line != [] && (forall i :: 0 <= i < |line| - 1 ==> line[i] != '\n')
    && (!last ==> line[|line| - 1] == '\n')
  }

  lemma {:induction false} LineLenIs(s: string)
    requires s != []
    ensures IsLine(s[..LineLen(s)], LineLen(s) == |s|)
  {
    if s[0] != '\n' && s[1..] != [] {
      var n := LineLen(s[1..]);
      LineLenIs(s[1..]);
      assert s[..n + 1] == [s[0]] + s[1..][..n];
    }
  }

  /** A text is its lines, cut right behind every newline. */
  lemma {:induction false} LinesMeaning(s: string)
    ensures Flatten(Lines(s)) == s
    ensures forall k :: 0 <= k < |Lines(s)| ==> IsLine(Lines(s)[k], k == |Lines(s)| - 1)
    decreases |s|
  {
    if s != [] {
      hide IsLine, LineLen;
      var n := LineLen(s);
      var rest := Lines(s[n..]);
      LinesMeaning(s[n..]);
      LineLenIs(s);
      FlattenCons(s[..n], rest);
      assert s == s[..n] + s[n..];
      NoLines();
      hide Lines;
      var lines := [s[..n]] + rest;
      assert Lines(s) == lines by { LinesStep(s); }
      forall k | 0 <= k < |lines| ensures IsLine(lines[k], k == |lines| - 1) {
        if k > 0 { assert lines[k] == rest[k - 1]; }
      }
    }
  }

  lemma {:induction false} LinesStep(s: string)
    requires s != []
    ensures Lines(s) == [s[..LineLen(s)]] + Lines(s[LineLen(s)..])
  {
  }

  lemma {:induction false} NoLines()
    ensures forall s :: Lines(s) == [] ==> s == []
  {
  }

  lemma {:induction false} FlattenCons<T>(x: seq<T>, rest: seq<seq<T>>)
    ensures Flatten([x] + rest) == x + Flatten(rest)
  {
    assert ([x] + rest)[1..] == rest;
  }

  // ----- What a line says by itself -----

  /** The trimmed line, between what is trimmed. */
  lemma {:induction false} TrimSpaceMeaning(s: string) returns (left: string, right: string)
    ensures s == left + TrimSpace(s) + right && Blank(left) && Blank(right)
    ensures TrimSpace(s) == [] || (!IsSpace(TrimSpace(s)[0]) && !IsSpace(TrimSpace(s)[|TrimSpace(s)| - 1]))
  {
    left := LeftSpace(s);
    right := RightSpace(TrimSpaceLeft(s));
    assert left + (TrimSpace(s) + right) == left + TrimSpace(s) + right;
  }

  lemma {:induction false} LeftSpace(s: string) returns (left: string)
    ensures s == left + TrimSpaceLeft(s) && Blank(left) && (TrimSpaceLeft(s) == [] || !IsSpace(TrimSpaceLeft(s)[0]))
  {
    if s != [] && IsSpace(s[0]) {
      var rest := LeftSpace(s[1..]);
      left := [s[0]] + rest;
      assert s == [s[0]] + s[1..];
    } else {
      left := [];
    }
  }

  lemma {:induction false} RightSpace(s: string) returns (right: string)
    ensures s == TrimSpaceRight(s) + right && Blank(right)
    ensures TrimSpaceRight(s) == [] || !IsSpace(TrimSpaceRight(s)[|TrimSpaceRight(s)| - 1])
    ensures TrimSpaceRight(s) != [] ==> TrimSpaceRight(s)[0] == s[0]
    decreases |s|
  {
    if s != [] && IsSpace(s[|s| - 1]) {
      var rest := RightSpace(s[..|s| - 1]);
      right := rest + [s[|s| - 1]];
      assert s == s[..|s| - 1] + [s[|s| - 1]];
    } else {
      right := [];
    }
  }

  lemma {:induction false} TrimmedAway(s: string)
    ensures TrimSpace(s) == [] <==> Blank(s)
  {
    var left, right := TrimSpaceMeaning(s);
    if TrimSpace(s) != [] {
      assert s[|left|] == TrimSpace(s)[0];
    }
  }

  /** The line starts with exactly n of the fence character c. */
  predicate RunOf(line: string, c: char, n: nat) {
    && (c == '`' || c == '~') && 1 <= n <= |line|
    && (forall i :: 0 <= i < n ==> line[i] == c) && (n < |line| ==> line[n] != c)
  }

  lemma {:induction false} FenceRunMeaning(line: string)
    ensures FenceRun(line) > 0 ==> RunOf(line, line[0], FenceRun(line))
    ensures forall c, n: nat :: RunOf(line, c, n) ==> n == FenceRun(line) && c == line[0]
  {
    forall c, n: nat | RunOf(line, c, n) ensures n == FenceRun(line) && c == line[0] {
      assert line[0] == c;
      CharRunIs(line, c, n);
    }
  }

  lemma {:induction false} CharRunIs(line: string, c: char, n: nat)
    requires n <= |line| && (forall i :: 0 <= i < n ==> line[i] == c) && (n < |line| ==> line[n] != c)
    ensures CharRun(line, c) == n
  {
    if n > 0 {
      CharRunIs(line[1..], c, n - 1);
    }
  }

  /** At least the opener's length, the same character, and nothing else on the line. */
  ghost predicate Closes(line: string, c: char, n: nat) {
    exists k: nat :: k >= n && RunOf(line, c, k) && Blank(line[k..])
  }

  /** A bullet or a number with a dot or parenthesis, and a blank behind it. */
  ghost predicate ListMarker(line: string, marker: string, c: char, rest: string) {
    && line == marker + [c] + rest && (c == ' ' || c == '\t')
    && (marker == "-" || marker == "+" || marker == "*"
        || (|marker| >= 2 && AllDigits(marker[..|marker| - 1]) && (marker[|marker| - 1] == '.' || marker[|marker| - 1] == ')')))
  }

  lemma {:induction false} DigitsAheadIs(s: string)
    ensures AllDigits(s[..DigitsAhead(s)]) && (DigitsAhead(s) < |s| ==> !IsDigit(s[DigitsAhead(s)]))
  {
    if s != [] && IsDigit(s[0]) {
      DigitsAheadIs(s[1..]);
      assert s[..DigitsAhead(s)] == [s[0]] + s[1..][..DigitsAhead(s) - 1];
    }
  }

  lemma {:induction false} ListStartMeaning(line: string)
    ensures ListStart(line) <==> exists marker, c, rest :: ListMarker(line, marker, c, rest)
  {
    DigitsAheadIs(line);
    var n := DigitsAhead(line);
    if ListStart(line) {
      var m := if line[0] in "-+*" then 1 else n + 1;
      assert line == line[..m] + [line[m]] + line[m + 1..];
      assert m == n + 1 ==> line[..m][..m - 1] == line[..n];
      assert ListMarker(line, line[..m], line[m], line[m + 1..]);
    }
    if marker, c, rest :| ListMarker(line, marker, c, rest) {
      var k := |marker| - 1;
      assert line[..k + 1] == marker && line[k + 1] == c;
      if k > 0 {
        assert IsDigit(line[0]) by { assert line[0] == marker[..k][0]; }
        assert line[k] == marker[k];
        if n < k { assert marker[..k][n] == line[n]; }
        if k < n { assert line[..n][k] == line[k]; }
      } else {
        assert line[0] == marker[0];
      }
    }
  }

  predicate Indented(raw: string) {
    HasPrefix(raw, "    ") || HasPrefix(raw, "\t")
  }

  /** A nonblank line at the margin that starts no list item: it ends a list. */
  predicate EndsList(raw: string) {
    !Blank(raw) && !ListStart(TrimSpace(raw)) && raw[0] != ' ' && raw[0] != '\t'
  }

  // ----- Which lines are code -----

  /** Line i opens a fence: outside any fence that an earlier line opens. */
  ghost predicate OpensFence(lines: seq<string>, i: nat, c: char, n: nat)
    requires i < |lines|
    decreases i
  {
    && n >= 3 && RunOf(TrimSpace(lines[i]), c, n)
    && forall h: nat, d, m: nat :: h < i && OpensFence(lines, h, d, m) ==> !StaysOpen(lines, h, d, m, i)
  }

  /** Some earlier line opens a fence that no line in between closes. */
  ghost predicate InsideFence(lines: seq<string>, k: nat)
    requires k <= |lines|
  {
    exists i: nat, c, n: nat :: i < k && OpensFence(lines, i, c, n) && StaysOpen(lines, i, c, n, k)
  }

  lemma {:induction false} OpensOutside(lines: seq<string>, i: nat, c: char, n: nat)
    requires i < |lines|
    ensures OpensFence(lines, i, c, n) <==> n >= 3 && RunOf(TrimSpace(lines[i]), c, n) && !InsideFence(lines, i)
  {
    hide RunOf, TrimSpace, StaysOpen;
  }

  ghost predicate StaysOpen(lines: seq<string>, i: nat, c: char, n: nat, k: nat)
    requires k <= |lines|
  {
    forall m :: i < m < k ==> !Closes(TrimSpace(lines[m]), c, n)
  }

  /** A line of fenced code, from the opening to the closing line. */
  ghost predicate Fenced(lines: seq<string>, k: nat)
    requires k < |lines|
  {
    exists i: nat, c, n: nat :: i <= k && OpensFence(lines, i, c, n) && StaysOpen(lines, i, c, n, k)
  }

  /** A list item is open at line k. */
  ghost predicate InList(lines: seq<string>, k: nat)
    requires k < |lines|
  {
    exists i :: 0 <= i <= k && ListStart(TrimSpace(lines[i])) && forall m :: i < m <= k ==> !EndsList(lines[m])
  }

  /** A run of indented lines outside lists, behind a blank line, the start or fenced code. */
  ghost predicate IndentedBlock(lines: seq<string>, k: nat)
    requires k < |lines|
  {
    exists i: nat :: BlockFrom(lines, i, k)
  }

  ghost predicate BlockFrom(lines: seq<string>, i: nat, k: nat)
    requires k < |lines|
  {
    i <= k && (i == 0 || Blank(lines[i - 1]) || Fenced(lines, i - 1))
    && forall m :: i <= m <= k ==> Indented(lines[m]) && !InList(lines, m)
  }

  ghost predicate CodeLine(lines: seq<string>, k: nat)
    requires k < |lines|
  {
    Fenced(lines, k) || IndentedBlock(lines, k)
  }

  // ----- The scan's state -----

  function StateAt(lines: seq<string>, k: nat): LineState
    requires k <= |lines|
  {
    if k == 0 then START else LineAfter(StateAt(lines, k - 1), lines[k - 1])
  }

  lemma {:induction false} ShorterIfEarlier(lines: seq<string>, i: nat, c: char, n: nat, i': nat, k: nat)
    requires i' < k <= |lines| && i < k && OpensFence(lines, i, c, n) && StaysOpen(lines, i, c, n, k)
    ensures i < i' ==> InsideFence(lines, i')
  {
    OpenShorter(lines, i, c, n, i', k);
  }

  lemma {:induction false} OneOpener(lines: seq<string>, k: nat, i: nat, c: char, n: nat, i': nat, c': char, n': nat)
    requires k <= |lines| && i < k && OpensFence(lines, i, c, n) && StaysOpen(lines, i, c, n, k)
    requires i' < k && OpensFence(lines, i', c', n') && StaysOpen(lines, i', c', n', k)
    ensures i == i' && c == c' && n == n'
  {
    hide RunOf;
    OpensOutside(lines, i, c, n);
    OpensOutside(lines, i', c', n');
    ShorterIfEarlier(lines, i, c, n, i', k);
    ShorterIfEarlier(lines, i', c', n', i, k);
    FenceRunMeaning(TrimSpace(lines[i]));
  }

  lemma {:induction false} OpenShorter(lines: seq<string>, i: nat, c: char, n: nat, k: nat, k': nat)
    requires k <= k' <= |lines| && StaysOpen(lines, i, c, n, k')
    ensures StaysOpen(lines, i, c, n, k)
  {
  }

  lemma {:induction false} OpenShorterAll(lines: seq<string>, k: nat)
    requires k < |lines|
    ensures forall i: nat, c, n: nat :: StaysOpen(lines, i, c, n, k + 1) ==> StaysOpen(lines, i, c, n, k)
  {
  }

  ghost predicate OpenFence(lines: seq<string>, k: nat, c: char, n: nat)
    requires k <= |lines|
  {
    exists i: nat :: i < k && OpensFence(lines, i, c, n) && StaysOpen(lines, i, c, n, k)
  }

  lemma {:induction false} ClosesIs(line: string, c: char, n: nat)
    requires n >= 1
    ensures Closes(line, c, n) <==> FenceRun(line) >= n && line[0] == c && TrimSpace(line[FenceRun(line)..]) == []
  {
    FenceRunMeaning(line);
    TrimmedAway(line[FenceRun(line)..]);
    if Closes(line, c, n) {
      var k: nat :| k >= n && RunOf(line, c, k) && Blank(line[k..]);
    }
  }

  lemma {:induction false} FenceState(lines: seq<string>, k: nat)
    requires k <= |lines|
    ensures match StateAt(lines, k).fence
            case None => !InsideFence(lines, k)
            case Some(f) => OpenFence(lines, k, f.c, f.len)
  {
    hide RunOf, Closes, FenceRun, TrimSpace;
    if k > 0 {
      FenceState(lines, k - 1);
      FenceNext(lines, k - 1, StateAt(lines, k - 1));
    }
  }

  /** Without a fence on line k, what is inside behind it was inside before it. */
  lemma {:induction false} InsideNext(lines: seq<string>, k: nat)
    requires k < |lines| && FenceRun(TrimSpace(lines[k])) < 3
    ensures InsideFence(lines, k + 1) ==> InsideFence(lines, k)
  {
    hide TrimSpace, Closes, FenceRun, RunOf;
    FenceRunMeaning(TrimSpace(lines[k]));
    OpenIsInside(lines, k + 1);
    OpenIsInside(lines, k);
    if InsideFence(lines, k + 1) {
      var c, n: nat :| OpenFence(lines, k + 1, c, n);
      var i: nat :| i < k + 1 && OpensFence(lines, i, c, n) && StaysOpen(lines, i, c, n, k + 1);
      OpenShorter(lines, i, c, n, k, k + 1);
      assert OpenFence(lines, k, c, n);
    }
  }

  /** Behind the closing line nothing is inside. */
  lemma {:induction false} ClosedNext(lines: seq<string>, k: nat, i: nat, c: char, n: nat)
    requires k < |lines| && i < k && OpensFence(lines, i, c, n) && StaysOpen(lines, i, c, n, k) && Closes(TrimSpace(lines[k]), c, n)
    ensures !InsideFence(lines, k + 1)
  {
    hide TrimSpace, Closes, RunOf;
    assert InsideFence(lines, k);
    forall i': nat, c', n': nat | i' < k && OpensFence(lines, i', c', n') && StaysOpen(lines, i', c', n', k)
      ensures i' == i && c' == c && n' == n
    {
      OneOpener(lines, k, i, c, n, i', c', n');
    }
    OpenShorterAll(lines, k);
    forall i': nat, c', n': nat | i' < k + 1 && OpensFence(lines, i', c', n') ensures !StaysOpen(lines, i', c', n', k + 1) {}
  }

  lemma {:induction false} FenceNext(lines: seq<string>, k: nat, st: LineState)
    requires k < |lines|
    requires match st.fence case None => !InsideFence(lines, k) case Some(f) => OpenFence(lines, k, f.c, f.len)
    ensures match FenceAfter(st, lines[k])
            case None => !InsideFence(lines, k + 1)
            case Some(f) => OpenFence(lines, k + 1, f.c, f.len)
  {
    hide TrimSpace, Closes, FenceRun, RunOf;
    var line := TrimSpace(lines[k]);
    FenceRunMeaning(line);
    match st.fence
    case None =>
      if FenceRun(line) >= 3 {
        assert OpensFence(lines, k, line[0], FenceRun(line)) && StaysOpen(lines, k, line[0], FenceRun(line), k + 1);
      } else {
        InsideNext(lines, k);
      }
    case Some(f) =>
      var i: nat :| i < k && OpensFence(lines, i, f.c, f.len) && StaysOpen(lines, i, f.c, f.len, k);
      ClosesIs(line, f.c, f.len);
      assert InsideFence(lines, k);
      if Closes(line, f.c, f.len) {
        ClosedNext(lines, k, i, f.c, f.len);
      } else {
        assert StaysOpen(lines, i, f.c, f.len, k + 1);
      }
  }

  lemma {:induction false} ListState(lines: seq<string>, k: nat)
    requires k < |lines|
    ensures ListAfter(StateAt(lines, k), lines[k]) <==> InList(lines, k)
  {
    hide TrimSpace, ListStart;
    TrimmedAway(lines[k]);
    if k > 0 {
      ListState(lines, k - 1);
      assert StateAt(lines, k).inList == ListAfter(StateAt(lines, k - 1), lines[k - 1]);
      if InList(lines, k) && !ListStart(TrimSpace(lines[k])) {
        var i :| 0 <= i <= k && ListStart(TrimSpace(lines[i])) && forall m :: i < m <= k ==> !EndsList(lines[m]);
        assert i <= k - 1;
      }
      if InList(lines, k - 1) && !EndsList(lines[k]) {
        var i :| 0 <= i <= k - 1 && ListStart(TrimSpace(lines[i])) && forall m :: i < m <= k - 1 ==> !EndsList(lines[m]);
        assert forall m :: i < m <= k ==> !EndsList(lines[m]);
      }
    }
  }

  lemma {:induction false} FencedIs(lines: seq<string>, k: nat)
    requires k < |lines|
    ensures Fenced(lines, k) <==> InsideFence(lines, k) || FenceRun(TrimSpace(lines[k])) >= 3
  {
    hide TrimSpace, Closes, FenceRun, RunOf;
    var line := TrimSpace(lines[k]);
    FenceRunMeaning(line);
    if FenceRun(line) >= 3 && !InsideFence(lines, k) {
      assert OpensFence(lines, k, line[0], FenceRun(line)) && StaysOpen(lines, k, line[0], FenceRun(line), k);
    }
    if Fenced(lines, k) {
      var i: nat, c, n: nat :| i <= k && OpensFence(lines, i, c, n) && StaysOpen(lines, i, c, n, k);
    }
  }

  /** A line is protected by the scan exactly if it is a line of code. */
  lemma {:induction false} LineMaskedMeaning(lines: seq<string>, k: nat)
    requires k < |lines|
    ensures LineMasked(StateAt(lines, k), lines[k]) <==> CodeLine(lines, k)
  {
    hide TrimSpace, ListStart, FenceRun, OpensFence, InList, Fenced, ListAfter, FenceAfter;
    var st := StateAt(lines, k);
    FenceState(lines, k);
    FencedIs(lines, k);
    ListState(lines, k);
    if k > 0 {
      LineMaskedMeaning(lines, k - 1);
      TrimmedAway(lines[k - 1]);
      BlockGoesOn(lines, k);
    } else {
      BlockStarts(lines);
    }
    OpenIsInside(lines, k);
  }

  lemma {:induction false} OpenIsInside(lines: seq<string>, k: nat)
    requires k <= |lines|
    ensures InsideFence(lines, k) <==> exists c, n: nat :: OpenFence(lines, k, c, n)
  {
    hide OpensFence, StaysOpen;
    if InsideFence(lines, k) {
      var i: nat, c, n: nat :| i < k && OpensFence(lines, i, c, n) && StaysOpen(lines, i, c, n, k);
      assert OpenFence(lines, k, c, n);
    }
    if c, n: nat :| OpenFence(lines, k, c, n) {
      var i: nat :| i < k && OpensFence(lines, i, c, n) && StaysOpen(lines, i, c, n, k);
    }
  }

  lemma {:induction false} BlockStarts(lines: seq<string>)
    requires lines != []
    ensures IndentedBlock(lines, 0) <==> Indented(lines[0]) && !InList(lines, 0)
  {
    hide InList, Fenced, Indented;
    assert BlockFrom(lines, 0, 0) <==> Indented(lines[0]) && !InList(lines, 0);
  }

  lemma {:induction false} BlockGoesOn(lines: seq<string>, k: nat)
    requires 0 < k < |lines|
    ensures IndentedBlock(lines, k) <==> Indented(lines[k]) && !InList(lines, k) && (Blank(lines[k - 1]) || CodeLine(lines, k - 1))
  {
    hide InList, Fenced, Indented;
    if IndentedBlock(lines, k) {
      var i: nat :| BlockFrom(lines, i, k);
      if i < k { assert BlockFrom(lines, i, k - 1); }
    }
    if Indented(lines[k]) && !InList(lines, k) && (Blank(lines[k - 1]) || CodeLine(lines, k - 1)) {
      if Blank(lines[k - 1]) || Fenced(lines, k - 1) {
        assert BlockFrom(lines, k, k);
      } else {
        var i: nat :| BlockFrom(lines, i, k - 1);
        assert BlockFrom(lines, i, k);
      }
    }
  }

  // ----- The mask -----

  ghost function LineFlags(lines: seq<string>): (flags: seq<seq<bool>>)
    ensures |flags| == |lines|
  {
    seq(|lines|, k requires 0 <= k < |lines| => Flags(|lines[k]|, CodeLine(lines, k)))
  }

  lemma {:induction false} MaskFrom(lines: seq<string>, k: nat, rest: string)
    requires k <= |lines| && lines[k..] == Lines(rest)
    ensures LineMask(rest, StateAt(lines, k)) == Flatten(LineFlags(lines)[k..])
    decreases |rest|
  {
    hide CodeLine, LineMasked, LineAfter;
    if rest == [] {
      assert k == |lines|;
    } else {
      var n := LineLen(rest);
      assert lines[k] == lines[k..][0] == rest[..n] && lines[k + 1..] == lines[k..][1..] == Lines(rest[n..]);
      LineMaskedMeaning(lines, k);
      MaskFrom(lines, k + 1, rest[n..]);
      var flags := LineFlags(lines);
      assert flags[k..] == [flags[k]] + flags[k + 1..];
      assert flags[k..][1..] == flags[k + 1..];
    }
  }

  /** The line scan protects exactly the lines of code. */
  lemma {:induction false} LineMaskMeaning(s: string)
    ensures LineMask(s, START) == Flatten(LineFlags(Lines(s)))
  {
    var lines := Lines(s);
    assert lines[0..] == lines && LineFlags(lines)[0..] == LineFlags(lines);
    MaskFrom(lines, 0, s);
  }
}
