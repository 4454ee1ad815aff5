/** Setext neutralisation (citationtext/setext.go): a blank line is inserted between a
    paragraph and a dash rule, so that the paragraph does not become a heading. */
module Setext {
  import opened GoText

  const MAX_SETEXT_CONTENT_RUNES := 10000
  const SETEXT_MAX_CONTENT_BYTES := 512000

  // ----- Lines -----

  function SplitLines(s: string): (lines: seq<string>)
    ensures lines != []
    ensures forall i :: 0 <= i < |lines| ==> '\n' !in lines[i]
  {
    if s == "" then [""]
    else
      var rest := SplitLines(s[1..]);
      if s[0] == '\n' then [""] + rest else [[s[0]] + rest[0]] + rest[1..]
  }

  function JoinLines(lines: seq<string>): string
    requires lines != []
  {
    if |lines| == 1 then lines[0] else lines[0] + "\n" + JoinLines(lines[1..])
  }

  lemma {:induction false} JoinSplit(s: string)
    ensures JoinLines(SplitLines(s)) == s
  {
    if s != "" {
      JoinSplit(s[1..]);
      var rest := SplitLines(s[1..]);
      assert s == [s[0]] + s[1..];
      if s[0] == '\n' {
        assert ([""] + rest)[1..] == rest;
        assert "" + "\n" + JoinLines(rest) == ['\n'] + JoinLines(rest);
      } else if |rest| > 1 {
        assert [s[0]] + rest[0] + "\n" + JoinLines(rest[1..]) == [s[0]] + (rest[0] + "\n" + JoinLines(rest[1..]));
      }
    }
  }

  lemma {:induction false} SplitLine(line: string, tail: string)
    requires '\n' !in line
    ensures SplitLines(line + "\n" + tail) == [line] + SplitLines(tail)
    ensures SplitLines(line) == [line]
  {
    var s := line + "\n" + tail;
    if line == "" {
      assert s == "\n" + tail && s[1..] == tail;
    } else {
      assert s[1..] == line[1..] + "\n" + tail && s[0] == line[0];
      SplitLine(line[1..], tail);
      assert [line[0]] + line[1..] == line;
    }
  }

  /** Lines without line breaks survive a round trip through text. */
  lemma {:induction false} SplitJoin(lines: seq<string>)
    requires lines != [] && forall i :: 0 <= i < |lines| ==> '\n' !in lines[i]
    ensures SplitLines(JoinLines(lines)) == lines
  {
    if |lines| == 1 {
      SplitLine(lines[0], "");
    } else {
      SplitLine(lines[0], JoinLines(lines[1..]));
      SplitJoin(lines[1..]);
    }
  }

  // ----- What a line is -----

  predicate IsBlankChar(c: char) {
    c == ' ' || c == '\t'
  }

  function LeadingSpaces(s: string): (n: nat)
    ensures n <= |s|
  {
    if s == "" || s[0] != ' ' then 0 else 1 + LeadingSpaces(s[1..])
  }

  function LeadingBlanks(s: string): (n: nat)
    ensures n <= |s|
  {
    if s == "" || !IsBlankChar(s[0]) then 0 else 1 + LeadingBlanks(s[1..])
  }

  function TrimRuleEnd(s: string): string {
    if s != "" && (IsBlankChar(s[|s| - 1]) || s[|s| - 1] == '\r') then TrimRuleEnd(s[..|s| - 1]) else s
  }

  /** A dash rule: three or more dashes with optional surrounding whitespace. */
  predicate IsSetextUnderline(line: string) {
    var t := TrimRuleEnd(line[LeadingSpaces(line)..]);
    |t| >= 3 && forall i :: 0 <= i < |t| ==> t[i] == '-'
  }

  function FenceIndent(line: string): nat {
    var ws := line[..LeadingBlanks(line)];
    if '\t' in ws then 4 else |ws|
  }

  function Run(s: string, c: char): (n: nat)
    ensures n <= |s|
  {
    if s == "" || s[0] != c then 0 else 1 + Run(s[1..], c)
  }

  function OpensFence(line: string): Option<(char, nat)> {
    var t := line[LeadingBlanks(line)..];
    if FenceIndent(line) > 3 || |t| < 3 || (t[0] != '`' && t[0] != '~') then None
    else
      var n := Run(t, t[0]);
      if n < 3 || (t[0] == '`' && '`' in t[n..]) then None else Some((t[0], n))
  }

  predicate ClosesFence(line: string, c: char, n: nat) {
    var t := line[LeadingBlanks(line)..];
    FenceIndent(line) <= 3 && Run(t, c) >= n && Blank(t[Run(t, c)..])
  }

  predicate IsIndentedCode(line: string) {
    HasPrefix(line, "    ") || HasPrefix(line, "\t")
  }

  // ----- The pass -----

  datatype Fence = Outside | Inside(c: char, n: nat)

  function FenceAfter(f: Fence, line: string): Fence {
    match f
    case Inside(c, n) => if ClosesFence(line, c, n) then Outside else f
    case Outside =>
      if IsIndentedCode(line) then Outside
      else match OpensFence(line) case Some((c, n)) => Inside(c, n) case None => Outside
  }

  function FenceAfterAll(f: Fence, lines: seq<string>): Fence
    decreases |lines|
  {
    if lines == [] then f else FenceAfterAll(FenceAfter(f, lines[0]), lines[1..])
  }

  /** strings.TrimRight(prev, "\r") == "" */
  predicate OnlyReturns(s: string) {
    forall i :: 0 <= i < |s| ==> s[i] == '\r'
  }

  /** A dash rule, outside a fence, that would turn the line before it into a heading. */
  predicate Hijacks(f: Fence, prev: Option<string>, line: string) {
    && f == Outside && !IsIndentedCode(line) && OpensFence(line).None? && IsSetextUnderline(line)
    && prev.Some? && !OnlyReturns(prev.value) && !IsIndentedCode(prev.value) && !IsSetextUnderline(prev.value)
    && |prev.value| <= MAX_SETEXT_CONTENT_RUNES
  }

  function BlankFor(line: string): string {
    if line != "" && line[|line| - 1] == '\r' then "\r" else ""
  }

  /** An output line: one of the input, or an inserted blank. */
  datatype Out = Original(text: string) | Inserted(text: string)

  function Pass(f: Fence, prev: Option<string>, lines: seq<string>): seq<Out>
    decreases |lines|
  {
    if lines == [] then []
    else
      (if Hijacks(f, prev, lines[0]) then [Inserted(BlankFor(lines[0]))] else [])
      + [Original(lines[0])] + Pass(FenceAfter(f, lines[0]), Some(lines[0]), lines[1..])
  }

  function Texts(outs: seq<Out>): (lines: seq<string>)
    ensures |lines| == |outs| && forall i :: 0 <= i < |outs| ==> lines[i] == outs[i].text
  {
    seq(|outs|, i requires 0 <= i < |outs| => outs[i].text)
  }

  function Originals(outs: seq<Out>): seq<string> {
    if outs == [] then [] else (if outs[0].Original? then [outs[0].text] else []) + Originals(outs[1..])
  }

  function NormalizeSpec(content: string): string {
    if '\n' !in content || ByteLen(content) > SETEXT_MAX_CONTENT_BYTES then content
    else
      PassNonempty(Outside, None, SplitLines(content));
      JoinLines(Texts(Pass(Outside, None, SplitLines(content))))
  }

  lemma {:induction false} PassNonempty(f: Fence, prev: Option<string>, lines: seq<string>)
    requires lines != []
    ensures Pass(f, prev, lines) != []
  {
  }

  // ----- What the pass does -----

  /** Removing the inserted blanks gives back the input. */
  lemma {:induction false} PassKeepsInput(f: Fence, prev: Option<string>, lines: seq<string>)
    ensures Originals(Pass(f, prev, lines)) == lines
    decreases |lines|
  {
    if lines != [] {
      var rest := Pass(FenceAfter(f, lines[0]), Some(lines[0]), lines[1..]);
      PassKeepsInput(FenceAfter(f, lines[0]), Some(lines[0]), lines[1..]);
      assert ([Original(lines[0])] + rest)[1..] == rest;
      var blank := [Inserted(BlankFor(lines[0]))];
      assert (blank + [Original(lines[0])] + rest)[1..] == [Original(lines[0])] + rest;
    }
  }

  lemma {:induction false} BlankIsInert(f: Fence, line: string)
    requires f == Outside
    ensures FenceAfter(f, BlankFor(line)) == Outside
    ensures !IsSetextUnderline(BlankFor(line)) && OnlyReturns(BlankFor(line)) && '\n' !in BlankFor(line)
  {
    assert LeadingSpaces("\r") == 0 && LeadingBlanks("\r") == 0;
  }

  lemma {:induction false} TextsCons(o: Out, rest: seq<Out>)
    ensures Texts([o] + rest) == [o.text] + Texts(rest)
  {
  }

  lemma {:induction false} PassUnfold(f: Fence, prev: Option<string>, lines: seq<string>)
    requires lines != []
    ensures var rest := Texts(Pass(FenceAfter(f, lines[0]), Some(lines[0]), lines[1..]));
      Texts(Pass(f, prev, lines))
      == if Hijacks(f, prev, lines[0]) then [BlankFor(lines[0])] + ([lines[0]] + rest) else [lines[0]] + rest
  {
    var rest := Pass(FenceAfter(f, lines[0]), Some(lines[0]), lines[1..]);
    TextsCons(Original(lines[0]), rest);
    if Hijacks(f, prev, lines[0]) {
      ConcatAssoc([Inserted(BlankFor(lines[0]))], [Original(lines[0])], rest);
      TextsCons(Inserted(BlankFor(lines[0])), [Original(lines[0])] + rest);
    } else {
      assert [] + [Original(lines[0])] + rest == [Original(lines[0])] + rest;
    }
  }

  /** The fence state on the output simulates the fence state on the input. */
  lemma {:induction false} PassKeepsFences(f: Fence, prev: Option<string>, lines: seq<string>)
    ensures FenceAfterAll(f, Texts(Pass(f, prev, lines))) == FenceAfterAll(f, lines)
    decreases |lines|
  {
    if lines != [] {
      var line := lines[0];
      var rest := Texts(Pass(FenceAfter(f, line), Some(line), lines[1..]));
      PassKeepsFences(FenceAfter(f, line), Some(line), lines[1..]);
      PassUnfold(f, prev, lines);
      FenceCons(f, line, rest);
      if Hijacks(f, prev, line) {
        BlankIsInert(f, line);
        FenceCons(f, BlankFor(line), [line] + rest);
      }
    }
  }

  lemma {:induction false} FenceCons(f: Fence, line: string, rest: seq<string>)
    ensures FenceAfterAll(f, [line] + rest) == FenceAfterAll(FenceAfter(f, line), rest)
  {
    assert ([line] + rest)[1..] == rest;
  }

  /** No rule outside a fence follows a line it would turn into a heading. */
  predicate Settled(f: Fence, prev: Option<string>, lines: seq<string>)
    decreases |lines|
  {
    lines != [] ==> !Hijacks(f, prev, lines[0]) && Settled(FenceAfter(f, lines[0]), Some(lines[0]), lines[1..])
  }

  lemma {:induction false} SettledCons(f: Fence, prev: Option<string>, line: string, rest: seq<string>)
    ensures Settled(f, prev, [line] + rest) <==> !Hijacks(f, prev, line) && Settled(FenceAfter(f, line), Some(line), rest)
  {
    assert ([line] + rest)[1..] == rest;
  }

  lemma {:induction false} PassSettles(f: Fence, prev: Option<string>, lines: seq<string>)
    ensures Settled(f, prev, Texts(Pass(f, prev, lines)))
    decreases |lines|
  {
    if lines != [] {
      var line := lines[0];
      var rest := Texts(Pass(FenceAfter(f, line), Some(line), lines[1..]));
      PassSettles(FenceAfter(f, line), Some(line), lines[1..]);
      PassUnfold(f, prev, lines);
      if Hijacks(f, prev, line) {
        BlankIsInert(f, line);
        SettledCons(Outside, Some(BlankFor(line)), line, rest);
        SettledCons(f, prev, BlankFor(line), [line] + rest);
      } else {
        SettledCons(f, prev, line, rest);
      }
    }
  }

  /** The pass changes nothing exactly when the lines are settled. */
  lemma {:induction false} SettledIsFixed(f: Fence, prev: Option<string>, lines: seq<string>)
    ensures Settled(f, prev, lines) ==> Texts(Pass(f, prev, lines)) == lines
    ensures !Settled(f, prev, lines) ==> |Pass(f, prev, lines)| > |lines|
    ensures |Pass(f, prev, lines)| >= |lines|
    decreases |lines|
  {
    if lines != [] {
      PassUnfold(f, prev, lines);
      SettledIsFixed(FenceAfter(f, lines[0]), Some(lines[0]), lines[1..]);
    }
  }

  /** Fence state and predecessor in front of line k. */
  function FenceBefore(f: Fence, lines: seq<string>, k: nat): Fence
    requires k <= |lines|
  {
    FenceAfterAll(f, lines[..k])
  }

  lemma {:induction false} SettledMeaning(f: Fence, prev: Option<string>, lines: seq<string>, k: nat)
    requires Settled(f, prev, lines) && k < |lines|
    ensures !Hijacks(FenceBefore(f, lines, k), if k == 0 then prev else Some(lines[k - 1]), lines[k])
    decreases |lines|
  {
    if k > 0 {
      SettledMeaning(FenceAfter(f, lines[0]), Some(lines[0]), lines[1..], k - 1);
      assert lines[..k] == [lines[0]] + lines[1..][..k - 1];
      FenceCons(f, lines[0], lines[1..][..k - 1]);
    }
  }

  /** The inserted line at k is a blank outside fences, directly before a dash rule that
      would have turned the line before it into a heading. */
  ghost predicate Justified(f: Fence, prev: Option<string>, outs: seq<Out>, k: nat)
    requires k < |outs|
  {
    && k + 1 < |outs| && outs[k + 1].Original? && OnlyReturns(outs[k].text)
    && (k > 0 ==> outs[k - 1].Original?)
    && Hijacks(FenceBefore(f, Texts(outs), k), if k == 0 then prev else Some(outs[k - 1].text), outs[k + 1].text)
  }

  lemma {:induction false} InsertionMeaning(f: Fence, prev: Option<string>, lines: seq<string>, k: nat)
    requires k < |Pass(f, prev, lines)| && Pass(f, prev, lines)[k].Inserted?
    ensures Justified(f, prev, Pass(f, prev, lines), k)
    decreases |lines|
  {
    hide FenceAfter, BlankFor;
    var line := lines[0];
    var rest := Pass(FenceAfter(f, line), Some(line), lines[1..]);
    var head := if Hijacks(f, prev, line) then [Inserted(BlankFor(line)), Original(line)] else [Original(line)];
    assert Pass(f, prev, lines) == head + rest;
    if k == 0 {
      BlankIsInert(f, line);
      assert Texts(head + rest)[..0] == [];
    } else {
      hide Hijacks, FenceBefore;
      assert rest[k - |head|] == Pass(f, prev, lines)[k];
      InsertionMeaning(FenceAfter(f, line), Some(line), lines[1..], k - |head|);
      FencePrefix(f, prev, lines, k, |head|);
      JustifiedShift(f, prev, line, head, rest, k);
    }
  }

  lemma {:induction false} JustifiedShift(f: Fence, prev: Option<string>, line: string, head: seq<Out>, rest: seq<Out>, k: nat)
    requires 1 <= |head| <= k < |head| + |rest| && head[|head| - 1] == Original(line)
    requires Justified(FenceAfter(f, line), Some(line), rest, k - |head|)
    requires FenceBefore(f, Texts(head + rest), k) == FenceBefore(FenceAfter(f, line), Texts(rest), k - |head|)
    ensures Justified(f, prev, head + rest, k)
  {
    var outs := head + rest;
    assert outs[k] == rest[k - |head|] && outs[k + 1] == rest[k + 1 - |head|];
    if k == |head| {
      assert outs[k - 1] == Original(line);
    } else {
      assert outs[k - 1] == rest[k - 1 - |head|];
    }
  }

  lemma {:induction false} FencePrefix(f: Fence, prev: Option<string>, lines: seq<string>, k: nat, d: nat)
    requires lines != [] && d == (if Hijacks(f, prev, lines[0]) then 2 else 1) && d <= k <= |Pass(f, prev, lines)|
    ensures var rest := Pass(FenceAfter(f, lines[0]), Some(lines[0]), lines[1..]);
      FenceBefore(f, Texts(Pass(f, prev, lines)), k) == FenceBefore(FenceAfter(f, lines[0]), Texts(rest), k - d)
  {
    var line := lines[0];
    var rest := Texts(Pass(FenceAfter(f, line), Some(line), lines[1..]));
    PassUnfold(f, prev, lines);
    if d == 2 {
      BlankIsInert(f, line);
      TakeCons(BlankFor(line), [line] + rest, k);
      TakeCons(line, rest, k - 1);
      FenceCons(f, BlankFor(line), ([line] + rest)[..k - 1]);
      FenceCons(f, line, rest[..k - 2]);
    } else {
      TakeCons(line, rest, k);
      FenceCons(f, line, rest[..k - 1]);
    }
  }

  lemma {:induction false} TakeCons(x: string, rest: seq<string>, k: nat)
    requires 1 <= k <= |rest| + 1
    ensures ([x] + rest)[..k] == [x] + rest[..k - 1]
  {
  }

  lemma {:induction false} PassLinesUnbroken(f: Fence, prev: Option<string>, lines: seq<string>)
    requires forall i :: 0 <= i < |lines| ==> '\n' !in lines[i]
    ensures forall i :: 0 <= i < |Pass(f, prev, lines)| ==> '\n' !in Pass(f, prev, lines)[i].text
    decreases |lines|
  {
    if lines != [] {
      PassLinesUnbroken(FenceAfter(f, lines[0]), Some(lines[0]), lines[1..]);
      if Hijacks(f, prev, lines[0]) { BlankIsInert(f, lines[0]); }
    }
  }

  /** The lines of a normalised text are the lines of the pass. */
  lemma {:induction false} NormalizedLines(content: string)
    requires '\n' in content && ByteLen(content) <= SETEXT_MAX_CONTENT_BYTES
    ensures SplitLines(NormalizeSpec(content)) == Texts(Pass(Outside, None, SplitLines(content)))
  {
    var lines := SplitLines(content);
    PassNonempty(Outside, None, lines);
    PassLinesUnbroken(Outside, None, lines);
    SplitJoin(Texts(Pass(Outside, None, lines)));
  }

  lemma {:induction false} NormalizeIdempotent(content: string)
    ensures NormalizeSpec(NormalizeSpec(content)) == NormalizeSpec(content)
  {
    if '\n' in content && ByteLen(content) <= SETEXT_MAX_CONTENT_BYTES {
      var out := NormalizeSpec(content);
      NormalizedLines(content);
      PassSettles(Outside, None, SplitLines(content));
      SettledIsFixed(Outside, None, SplitLines(out));
      JoinSplit(out);
    }
  }

  /** Within the size bound no heading hijack is left. */
  lemma {:induction false} NormalizedIsSettled(content: string)
    requires ByteLen(content) <= SETEXT_MAX_CONTENT_BYTES
    ensures Settled(Outside, None, SplitLines(NormalizeSpec(content)))
  {
    if '\n' in content {
      NormalizedLines(content);
      PassSettles(Outside, None, SplitLines(content));
    } else {
      SplitLine(content, "");
    }
  }

  // ----- The loop of the source -----

  ghost predicate DoneTo(lines: seq<string>, out: seq<string>, f: Fence, i: nat)
    requires i <= |lines|
  {
    out + Texts(Pass(f, if i == 0 then None else Some(lines[i - 1]), lines[i..])) == Texts(Pass(Outside, None, lines))
  }

  lemma {:induction false} DoneStep(lines: seq<string>, out: seq<string>, f: Fence, i: nat)
    requires i < |lines| && DoneTo(lines, out, f, i)
    ensures var prev := if i == 0 then None else Some(lines[i - 1]);
      DoneTo(lines, if Hijacks(f, prev, lines[i]) then out + [BlankFor(lines[i])] + [lines[i]] else out + [lines[i]], FenceAfter(f, lines[i]), i + 1)
  {
    var prev := if i == 0 then None else Some(lines[i - 1]);
    assert lines[i..][1..] == lines[i + 1..];
    PassUnfold(f, prev, lines[i..]);
    var rest := Texts(Pass(FenceAfter(f, lines[i]), Some(lines[i]), lines[i + 1..]));
    ConcatAssoc(out, [lines[i]], rest);
    ConcatAssoc(out + [BlankFor(lines[i])], [lines[i]], rest);
    ConcatAssoc(out, [BlankFor(lines[i])], [lines[i]] + rest);
  }

  method NormalizeSetextHeadings(content: string) returns (r: string)
    ensures r == NormalizeSpec(content)
  {
    if '\n' !in content {
      return content;
    }
    if ByteLen(content) > SETEXT_MAX_CONTENT_BYTES {
      return content;
    }
    var lines := SplitLines(content);
    var out: seq<string> := [];
    var fence := Outside;
    assert lines[0..] == lines;
    assert [] + Texts(Pass(Outside, None, lines)) == Texts(Pass(Outside, None, lines));
    for i := 0 to |lines|
      invariant DoneTo(lines, out, fence, i)
    {
      var line := lines[i];
      DoneStep(lines, out, fence, i);
      var add, next := NormalizeLine(fence, if i == 0 then None else Some(lines[i - 1]), line);
      if add {
        out := out + [BlankFor(line)];
      }
      out, fence := out + [line], next;
    }
    assert Texts(Pass(fence, if |lines| == 0 then None else Some(lines[|lines| - 1]), lines[|lines|..])) == [];
    assert out + [] == out;
    PassNonempty(Outside, None, lines);
    return JoinLines(out);
  }

  /** One line of the loop: whether a blank goes before it, and the fence state after. */
  method NormalizeLine(fence: Fence, prev: Option<string>, line: string) returns (add: bool, next: Fence)
    ensures add == Hijacks(fence, prev, line) && next == FenceAfter(fence, line)
  {
    if fence.Inside? {
      return false, if ClosesFence(line, fence.c, fence.n) then Outside else fence;
    }
    if IsIndentedCode(line) {
      return false, Outside;
    }
    var opener := OpensFence(line);
    if opener.Some? {
      return false, Inside(opener.value.0, opener.value.1);
    }
    if !IsSetextUnderline(line) || prev.None? {
      return false, Outside;
    }
    if OnlyReturns(prev.value) || IsIndentedCode(prev.value) || IsSetextUnderline(prev.value) {
      return false, Outside;
    }
    return |prev.value| <= MAX_SETEXT_CONTENT_RUNES, Outside;
  }
}
