/** What the history passes keep of a history that needs repair (history.go), message by
    message: each pass is what stands at every position, joined in order. */
module TranscriptMeaning {
  import opened GoText
  import opened Transcript

  // ----- Sanitising -----

  ghost predicate UserUpTo(h: seq<Message>, k: nat)
    requires k < |h|
  {
    exists u :: 0 <= u <= k && h[u].role == User
  }

  /** Every call of the turn at k has valid arguments and a nonempty id that is answered in
      the block right behind the turn. */
  ghost predicate WellAnswered(j: Json, h: seq<Message>, k: nat)
    requires k < |h|
  {
    forall c :: 0 <= c < |h[k].toolCalls| ==>
      j.isObject(h[k].toolCalls[c].arguments) && h[k].toolCalls[c].id != "" && Answered(h, k, h[k].toolCalls[c].id)
  }

  /** The result at k answers a batch that is kept. */
  ghost predicate AnswersKept(j: Json, h: seq<Message>, k: nat)
    requires k < |h|
  {
    exists i: nat :: i < k && IsBatch(h[i]) && WellAnswered(j, h, i) && Answers(h, i, k)
  }

  /** From the first user turn on: every message that is neither a result nor a batch, every
      well-answered batch, and the results that answer it. */
  ghost predicate SanitizeKeeps(j: Json, h: seq<Message>, k: nat)
    requires k < |h|
  {
    UserUpTo(h, k) && if h[k].role == Tool then AnswersKept(j, h, k) else IsBatch(h[k]) ==> WellAnswered(j, h, k)
  }

  ghost function SanitizePieces(j: Json, h: seq<Message>): (pieces: seq<seq<Message>>)
    ensures |pieces| == |h|
  {
    seq(|h|, k requires 0 <= k < |h| => if SanitizeKeeps(j, h, k) then [h[k]] else [])
  }

  lemma {:induction false} FlattenCut<T>(parts: seq<seq<T>>, i: nat)
    requires i < |parts|
    ensures Flatten(parts[i..]) == parts[i] + Flatten(parts[i + 1..])
  {
    assert parts[i..][1..] == parts[i + 1..];
  }

  /** The block behind position i. */
  lemma {:induction false} BlockAt(h: seq<Message>, i: nat) returns (d: nat)
    requires i < |h|
    ensures i < d <= |h| && Block(h[i..]) == h[i + 1..d] && Rest(h[i..]) == h[d..]
    ensures (forall l :: i < l < d ==> h[l].role == Tool) && (d < |h| ==> h[d].role != Tool)
  {
    d := i + 1 + |Block(h[i..])|;
    BlockEnds(h, i, d);
    assert forall l :: i < l < d ==> h[l] == Block(h[i..])[l - i - 1];
    if d < |h| { assert h[d..][0] == h[d] && !StartsWithTool(Rest(h[i..])); }
  }

  /** The batch test of the pass is the positional one. */
  lemma {:induction false} CompleteIsAnswered(j: Json, h: seq<Message>, i: nat, d: nat)
    requires i < d <= |h| && IsBatch(h[i]) && (forall l :: i < l < d ==> h[l].role == Tool) && (d < |h| ==> h[d].role != Tool)
    ensures CompleteBatch(j, h[i].toolCalls, h[i + 1..d]) <==> WellAnswered(j, h, i)
  {
    var calls, block := h[i].toolCalls, h[i + 1..d];
    forall c | 0 <= c < |calls| ensures calls[c].id in ResultIds(block) <==> Answered(h, i, calls[c].id) {
      AnsweredInBlock(h, i, d, calls[c].id, c);
    }
  }

  lemma {:induction false} AnsweredInBlock(h: seq<Message>, i: nat, d: nat, id: string, c: nat)
    requires i < d <= |h| && IsBatch(h[i]) && (forall l :: i < l < d ==> h[l].role == Tool) && (d < |h| ==> h[d].role != Tool)
    requires c < |h[i].toolCalls| && h[i].toolCalls[c].id == id
    ensures id in ResultIds(h[i + 1..d]) <==> Answered(h, i, id)
  {
    var block := h[i + 1..d];
    if id in ResultIds(block) {
      var k := ResultIndex(block, id);
      CallIdListed(h[i].toolCalls, c);
      assert h[i + 1 + k] == block[k];
      assert Answers(h, i, i + 1 + k);
    }
    if Answered(h, i, id) {
      var k: nat :| Answers(h, i, k) && h[k].toolCallId == id;
      assert k < d;
      assert block[k - i - 1] == h[k];
      ResultIdListed(block, k - i - 1);
    }
  }

  /** No batch stands right in front of the results around i. */
  ghost predicate Unclaimed(h: seq<Message>, i: nat)
    requires i <= |h|
  {
    forall l :: 0 <= l < i && (forall m :: l < m < i ==> h[m].role == Tool) ==> !IsBatch(h[l])
  }

  lemma {:induction false} SanitizedFrom(j: Json, h: seq<Message>, i: nat)
    requires i <= |h| && (i < |h| ==> UserUpTo(h, i)) && (i < |h| && h[i].role == Tool ==> Unclaimed(h, i))
    ensures SanitizeFrom(j, h[i..]) == Flatten(SanitizePieces(j, h)[i..])
    decreases |h| - i
  {
    hide Flatten, WellAnswered, UserUpTo;
    var pieces := SanitizePieces(j, h);
    if i == |h| {
      assert h[i..] == [] && pieces[i..] == [];
      NothingFlat();
    } else {
      assert h[i..][0] == h[i] && h[i..][1..] == h[i + 1..];
      if IsBatch(h[i]) {
        var d := BlockAt(h, i);
        FlattenCut(pieces, i);
        CompleteIsAnswered(j, h, i, d);
        BlockKept(j, h, i, d, i + 1);
        if d < |h| { UserStays(h, i, d); }
        SanitizedFrom(j, h, d);
        ConcatAssoc(pieces[i], if WellAnswered(j, h, i) then AllowedResults(h[i + 1..d], CallIds(h[i].toolCalls)) else [], Flatten(pieces[d..]));
      } else {
        FlattenCut(pieces, i);
        if i + 1 < |h| {
          UserStays(h, i, i + 1);
          StillUnclaimed(h, i);
        }
        if h[i].role == Tool {
          NobodyCalled(j, h, i);
        }
        SanitizedFrom(j, h, i + 1);
      }
    }
  }

  lemma {:induction false} NothingFlat()
    ensures Flatten<Message>([]) == []
  {
  }

  lemma {:induction false} UserStays(h: seq<Message>, i: nat, d: nat)
    requires i <= d < |h| && UserUpTo(h, i)
    ensures UserUpTo(h, d)
  {
  }

  lemma {:induction false} StillUnclaimed(h: seq<Message>, i: nat)
    requires i + 1 < |h| && !IsBatch(h[i]) && (h[i].role == Tool ==> Unclaimed(h, i))
    ensures h[i + 1].role == Tool ==> Unclaimed(h, i + 1)
  {
    forall l | 0 <= l < i + 1 && (forall m :: l < m < i + 1 ==> h[m].role == Tool) ensures !IsBatch(h[l]) {
      if l < i {
        assert h[i].role == Tool;
        assert forall m :: l < m < i ==> h[m].role == Tool;
      }
    }
  }

  lemma {:induction false} NobodyCalled(j: Json, h: seq<Message>, i: nat)
    requires i < |h| && h[i].role == Tool && Unclaimed(h, i)
    ensures !AnswersKept(j, h, i)
  {
    forall l: nat | l < i && IsBatch(h[l]) ensures !Answers(h, l, i) {}
  }

  /** A result in the block of the batch at i is kept exactly with it and if it was called. */
  lemma {:induction false} ResultKept(j: Json, h: seq<Message>, i: nat, m: nat)
    requires i < m < |h| && IsBatch(h[i]) && forall l :: i < l <= m ==> h[l].role == Tool
    ensures AnswersKept(j, h, m) <==> WellAnswered(j, h, i) && h[m].toolCallId in CallIds(h[i].toolCalls)
  {
    hide WellAnswered, CallIds;
    if AnswersKept(j, h, m) {
      var l: nat :| l < m && IsBatch(h[l]) && WellAnswered(j, h, l) && Answers(h, l, m);
      assert l == i;
    }
    if WellAnswered(j, h, i) && h[m].toolCallId in CallIds(h[i].toolCalls) {
      assert Answers(h, i, m);
    }
  }

  lemma {:induction false} BlockKept(j: Json, h: seq<Message>, i: nat, d: nat, m: nat)
    requires i < m <= d <= |h| && IsBatch(h[i]) && UserUpTo(h, i) && forall l :: i < l < d ==> h[l].role == Tool
    ensures Flatten(SanitizePieces(j, h)[m..])
         == (if WellAnswered(j, h, i) then AllowedResults(h[m..d], CallIds(h[i].toolCalls)) else []) + Flatten(SanitizePieces(j, h)[d..])
    decreases d - m
  {
    hide Flatten, WellAnswered, UserUpTo, CallIds;
    var pieces := SanitizePieces(j, h);
    if m == d {
      assert h[m..d] == [];
    } else {
      FlattenCut(pieces, m);
      UserStays(h, i, m);
      ResultKept(j, h, i, m);
      BlockKept(j, h, i, d, m + 1);
      assert h[m..d][0] == h[m] && h[m..d][1..] == h[m + 1..d];
      ConcatAssoc(pieces[m], if WellAnswered(j, h, i) then AllowedResults(h[m + 1..d], CallIds(h[i].toolCalls)) else [], Flatten(pieces[d..]));
    }
  }

  lemma {:induction false} NothingBeforeUser(j: Json, h: seq<Message>, i: nat)
    requires i <= |h| && forall u :: 0 <= u < i ==> h[u].role != User
    ensures Flatten(SanitizePieces(j, h)) == Flatten(SanitizePieces(j, h)[i..])
  {
    hide Flatten;
    var pieces := SanitizePieces(j, h);
    if i == 0 {
      assert pieces[0..] == pieces;
    } else {
      NothingBeforeUser(j, h, i - 1);
      FlattenCut(pieces, i - 1);
      assert pieces[i - 1] == [];
    }
  }

  lemma {:induction false} FirstUserAt(h: seq<Message>) returns (i: nat)
    ensures i <= |h| && FromFirstUser(h) == h[i..] && (i < |h| ==> h[i].role == User) && forall u :: 0 <= u < i ==> h[u].role != User
  {
    if h == [] || h[0].role == User {
      i := 0;
    } else {
      i := FirstUserAt(h[1..]);
      i := i + 1;
      assert forall u :: 1 <= u < i ==> h[u] == h[1..][u - 1];
    }
  }

  /** Sanitising keeps, in order, exactly the messages that SanitizeKeeps names. */
  lemma {:induction false} SanitizeMeaning(j: Json, h: seq<Message>)
    ensures Sanitize(j, h) == Flatten(SanitizePieces(j, h))
  {
    var i := FirstUserAt(h);
    NothingBeforeUser(j, h, i);
    if i < |h| { assert UserUpTo(h, i); }
    SanitizedFrom(j, h, i);
  }

  // ----- Malformed batches -----

  /** A result in the run right behind a message with invalid arguments. */
  ghost predicate BehindInvalid(j: Json, h: seq<Message>, k: nat)
    requires k < |h|
  {
    exists i :: 0 <= i < k && !ValidArguments(j, h[i].toolCalls) && forall l :: i < l <= k ==> h[l].role == Tool
  }

  /** A message with invalid arguments keeps at most its text, and the results right behind
      it go. */
  ghost function ValidPieces(j: Json, h: seq<Message>): (pieces: seq<seq<Message>>)
    ensures |pieces| == |h|
  {
    seq(|h|, k requires 0 <= k < |h| =>
      if BehindInvalid(j, h, k) then []
      else if ValidArguments(j, h[k].toolCalls) then [h[k]]
      else if Blank(h[k].content) then []
      else [h[k].(toolCalls := [])])
  }

  lemma {:induction false} StrippedFrom(j: Json, h: seq<Message>, i: nat)
    requires i <= |h| && (i < |h| ==> !BehindInvalid(j, h, i))
    ensures StripInvalid(j, h[i..]) == Flatten(ValidPieces(j, h)[i..])
    decreases |h| - i
  {
    hide Flatten, ValidArguments;
    var pieces := ValidPieces(j, h);
    if i == |h| {
      assert h[i..] == [] && pieces[i..] == [];
      NothingFlat();
    } else {
      assert h[i..][0] == h[i] && h[i..][1..] == h[i + 1..];
      FlattenCut(pieces, i);
      if ValidArguments(j, h[i].toolCalls) {
        if i + 1 < |h| { StillBehind(j, h, i); }
        StrippedFrom(j, h, i + 1);
      } else {
        var d := BlockAt(h, i);
        SkippedRun(j, h, i, d, i + 1);
        StrippedFrom(j, h, d);
      }
    }
  }

  lemma {:induction false} StillBehind(j: Json, h: seq<Message>, i: nat)
    requires i + 1 < |h| && ValidArguments(j, h[i].toolCalls)
    ensures BehindInvalid(j, h, i + 1) ==> BehindInvalid(j, h, i)
  {
    hide ValidArguments;
    if BehindInvalid(j, h, i + 1) {
      var l :| 0 <= l < i + 1 && !ValidArguments(j, h[l].toolCalls) && forall m :: l < m <= i + 1 ==> h[m].role == Tool;
      assert l < i && forall m :: l < m <= i ==> h[m].role == Tool;
    }
  }

  lemma {:induction false} SkippedOne(j: Json, h: seq<Message>, i: nat, m: nat)
    requires i < m < |h| && !ValidArguments(j, h[i].toolCalls) && forall l :: i < l <= m ==> h[l].role == Tool
    ensures ValidPieces(j, h)[m] == []
  {
    hide ValidArguments;
    assert BehindInvalid(j, h, m);
  }

  lemma {:induction false} SkippedRun(j: Json, h: seq<Message>, i: nat, d: nat, m: nat)
    requires i < m <= d <= |h| && !ValidArguments(j, h[i].toolCalls) && forall l :: i < l < d ==> h[l].role == Tool
    ensures Flatten(ValidPieces(j, h)[m..]) == Flatten(ValidPieces(j, h)[d..])
    decreases d - m
  {
    hide Flatten, ValidArguments, BehindInvalid, ValidPieces;
    if m < d {
      SkippedOne(j, h, i, m);
      FlattenCut(ValidPieces(j, h), m);
      SkippedRun(j, h, i, d, m + 1);
    }
  }

  lemma {:induction false} StripInvalidMeaning(j: Json, h: seq<Message>)
    ensures StripInvalid(j, h) == Flatten(ValidPieces(j, h))
  {
    StrippedFrom(j, h, 0);
    assert h[0..] == h && ValidPieces(j, h)[0..] == ValidPieces(j, h);
  }

  // ----- One tool's calls and results -----

  /** The calls of other tools, in order. */
  function OtherCalls(calls: seq<Call>, tool: string): seq<Call> {
    Flatten(seq(|calls|, i requires 0 <= i < |calls| => if calls[i].name != tool then [calls[i]] else []))
  }

  lemma {:induction false} OrdinaryCallsMeaning(calls: seq<Call>, tool: string)
    ensures OrdinaryCalls(calls, tool) == OtherCalls(calls, tool)
    ensures |OrdinaryCalls(calls, tool)| <= |calls|
    ensures |OrdinaryCalls(calls, tool)| == |calls| <==> forall i :: 0 <= i < |calls| ==> calls[i].name != tool
  {
    var pieces := seq(|calls|, i requires 0 <= i < |calls| => if calls[i].name != tool then [calls[i]] else []);
    if calls != [] {
      var rest := calls[1..];
      OrdinaryCallsMeaning(rest, tool);
      assert pieces[1..] == seq(|rest|, i requires 0 <= i < |rest| => if rest[i].name != tool then [rest[i]] else []);
      assert forall i :: 1 <= i < |calls| ==> calls[i] == rest[i - 1];
    }
  }

  /** A result of the tool by name, or one that answers a call of it in the batch in front of
      the run. */
  ghost predicate ResultOf(h: seq<Message>, tool: string, k: nat)
    requires k < |h|
  {
    h[k].name == tool || exists i: nat :: i < k && CallsFor(h, tool, i, h[k].toolCallId) && forall l :: i < l <= k ==> h[l].role == Tool
  }

  ghost predicate CallsFor(h: seq<Message>, tool: string, i: nat, id: string)
    requires i < |h|
  {
    id != "" && IsBatch(h[i]) && exists c :: 0 <= c < |h[i].toolCalls| && h[i].toolCalls[c].name == tool && h[i].toolCalls[c].id == id
  }

  /** A batch keeps the calls of other tools, loses its text with any call it loses, and goes
      when no call is left; results of the tool go; everything else stays. */
  ghost function OtherPieces(h: seq<Message>, tool: string): (pieces: seq<seq<Message>>)
    ensures |pieces| == |h|
  {
    seq(|h|, k requires 0 <= k < |h| =>
      if IsBatch(h[k]) then
        if forall c :: 0 <= c < |h[k].toolCalls| ==> h[k].toolCalls[c].name == tool then []
        else if forall c :: 0 <= c < |h[k].toolCalls| ==> h[k].toolCalls[c].name != tool then [h[k]]
        else [h[k].(toolCalls := OtherCalls(h[k].toolCalls, tool), content := "")]
      else if h[k].role == Tool && ResultOf(h, tool, k) then []
      else [h[k]])
  }

  /** `ids` are the calls of the tool in the batch in front of the run of results at i. */
  ghost predicate Pending(h: seq<Message>, tool: string, i: nat, ids: set<string>) {
    i < |h| && h[i].role == Tool ==>
      forall id :: id in ids <==> exists l: nat :: l < i && CallsFor(h, tool, l, id) && forall m :: l < m <= i ==> h[m].role == Tool
  }

  lemma {:induction false} StrippedToolFrom(h: seq<Message>, tool: string, i: nat, ids: set<string>)
    requires tool != "" && i <= |h| && Pending(h, tool, i, ids)
    ensures StripFrom(h[i..], tool, ids) == Flatten(OtherPieces(h, tool)[i..])
    decreases |h| - i
  {
    hide Flatten, OtherCalls;
    var pieces := OtherPieces(h, tool);
    if i == |h| {
      assert h[i..] == [] && pieces[i..] == [];
      NothingFlat();
    } else {
      var m := h[i];
      assert h[i..][0] == m && h[i..][1..] == h[i + 1..];
      FlattenCut(pieces, i);
      var ids' := if IsBatch(m) then NamedIds(m.toolCalls, tool) else if m.role == Tool then ids else {};
      PendingNext(h, tool, i, ids);
      StrippedToolFrom(h, tool, i + 1, ids');
      if IsBatch(m) {
        BatchStripped(m, tool);
      }
    }
  }

  lemma {:induction false} BatchStripped(m: Message, tool: string)
    requires IsBatch(m) && tool != ""
    ensures WithoutCalls(m, tool)
         == if forall c :: 0 <= c < |m.toolCalls| ==> m.toolCalls[c].name == tool then None
            else if forall c :: 0 <= c < |m.toolCalls| ==> m.toolCalls[c].name != tool then Some(m)
            else Some(m.(toolCalls := OtherCalls(m.toolCalls, tool), content := ""))
  {
    OrdinaryCallsMeaning(m.toolCalls, tool);
    OrdinaryCallsOf(m.toolCalls, tool);
    NoneOrdinary(m.toolCalls, tool);
    assert m.(toolCalls := m.toolCalls) == m;
  }

  lemma {:induction false} NoneOrdinary(calls: seq<Call>, tool: string)
    ensures OrdinaryCalls(calls, tool) == [] <==> forall c :: 0 <= c < |calls| ==> calls[c].name == tool
  {
    if calls != [] {
      NoneOrdinary(calls[1..], tool);
      assert forall c :: 1 <= c < |calls| ==> calls[c] == calls[1..][c - 1];
    }
  }

  lemma {:induction false} PendingNext(h: seq<Message>, tool: string, i: nat, ids: set<string>)
    requires i < |h| && Pending(h, tool, i, ids)
    ensures Pending(h, tool, i + 1, if IsBatch(h[i]) then NamedIds(h[i].toolCalls, tool) else if h[i].role == Tool then ids else {})
  {
    hide CallsFor;
    var ids' := if IsBatch(h[i]) then NamedIds(h[i].toolCalls, tool) else if h[i].role == Tool then ids else {};
    if i + 1 < |h| && h[i + 1].role == Tool {
      forall id ensures id in ids' <==> exists l: nat :: l < i + 1 && CallsFor(h, tool, l, id) && forall m :: l < m <= i + 1 ==> h[m].role == Tool {
        CallsForNamed(h, tool, i, id);
        if id in ids' {
          if IsBatch(h[i]) {
            assert CallsFor(h, tool, i, id);
          } else {
            var l: nat :| l < i && CallsFor(h, tool, l, id) && forall m :: l < m <= i ==> h[m].role == Tool;
            assert forall m :: l < m <= i + 1 ==> h[m].role == Tool;
          }
        }
        if l: nat :| l < i + 1 && CallsFor(h, tool, l, id) && forall m :: l < m <= i + 1 ==> h[m].role == Tool {
          if l < i {
            assert h[i].role == Tool;
          }
        }
      }
    }
  }

  lemma {:induction false} CallsForNamed(h: seq<Message>, tool: string, i: nat, id: string)
    requires i < |h|
    ensures CallsFor(h, tool, i, id) <==> IsBatch(h[i]) && id in NamedIds(h[i].toolCalls, tool)
  {
  }

  lemma {:induction false} StripTerminalMeaning(h: seq<Message>, tool: string)
    ensures StripTerminal(h, tool) == if tool == "" then h else Flatten(OtherPieces(h, tool))
  {
    if tool != "" {
      assert h[0..] == h && OtherPieces(h, tool)[0..] == OtherPieces(h, tool);
      StrippedToolFrom(h, tool, 0, {});
    }
  }

  // ----- What is said -----

  /** The conversation: what is neither a result nor a batch of calls. */
  function Said(h: seq<Message>): seq<Message> {
    if h == [] then []
    else (if h[0].role == Tool || IsBatch(h[0]) then [] else [h[0].(toolCalls := [])]) + Said(h[1..])
  }

  /** The same of a stored history, with the text of malformed turns. */
  function Conversation(j: Json, h: seq<Message>): seq<Message> {
    if h == [] then []
    else (if h[0].role == Tool || (if ValidArguments(j, h[0].toolCalls) then IsBatch(h[0]) else Blank(h[0].content))
          then [] else [h[0].(toolCalls := [])]) + Conversation(j, h[1..])
  }

  lemma {:induction false} SaidAppend(a: seq<Message>, b: seq<Message>)
    ensures Said(a + b) == Said(a) + Said(b)
  {
    if a == [] {
      assert a + b == b;
    } else {
      assert (a + b)[1..] == a[1..] + b && (a + b)[0] == a[0];
      SaidAppend(a[1..], b);
    }
  }

  lemma {:induction false} ToolsSayNothing(block: seq<Message>, j: Json)
    requires AllTools(block)
    ensures Said(block) == [] && Conversation(j, block) == []
  {
    if block != [] {
      ToolsSayNothing(block[1..], j);
    }
  }

  lemma {:induction false} ConversationAppend(j: Json, a: seq<Message>, b: seq<Message>)
    ensures Conversation(j, a + b) == Conversation(j, a) + Conversation(j, b)
  {
    if a == [] {
      assert a + b == b;
    } else {
      assert (a + b)[1..] == a[1..] + b && (a + b)[0] == a[0];
      ConversationAppend(j, a[1..], b);
    }
  }

  lemma {:induction false} SaidOne(m: Message)
    ensures Said([m]) == if m.role == Tool || IsBatch(m) then [] else [m.(toolCalls := [])]
  {
    assert [m][1..] == [];
  }

  lemma {:induction false} ValidSays(j: Json, m: Message, rest: seq<Message>)
    requires ValidArguments(j, m.toolCalls)
    ensures Said([m] + rest) == Conversation(j, [m]) + Said(rest)
  {
    assert ([m] + rest)[1..] == rest && [m][1..] == [];
  }

  /** A malformed turn says its text and its results say nothing. */
  lemma {:induction false} InvalidSays(j: Json, m: Message)
    requires !ValidArguments(j, m.toolCalls)
    ensures Said(if !Blank(m.content) then [m.(toolCalls := [])] else []) == Conversation(j, [m])
  {
    hide Blank, ValidArguments;
    SaidOne(m.(toolCalls := []));
    assert [m][1..] == [];
  }

  /** Behind a malformed turn its results say nothing. */
  lemma {:induction false} BlockSays(j: Json, h: seq<Message>)
    requires h != []
    ensures Conversation(j, h) == Conversation(j, [h[0]]) + Conversation(j, Rest(h))
  {
    hide Conversation;
    var block, rest := Block(h), Rest(h);
    assert h == [h[0]] + (block + rest);
    ConversationAppend(j, [h[0]], block + rest);
    ConversationAppend(j, block, rest);
    ToolsSayNothing(block, j);
    assert [] + Conversation(j, rest) == Conversation(j, rest);
  }

  lemma {:induction false} StripInvalidSays(j: Json, h: seq<Message>)
    ensures Said(StripInvalid(j, h)) == Conversation(j, h)
    decreases |h|
  {
    if h != [] {
      hide ValidArguments, Blank, Said, Conversation;
      var m := h[0];
      if ValidArguments(j, m.toolCalls) {
        assert h == [m] + h[1..];
        ConversationAppend(j, [m], h[1..]);
        StripInvalidSays(j, h[1..]);
        ValidSays(j, m, StripInvalid(j, h[1..]));
      } else {
        BlockSays(j, h);
        StripInvalidSays(j, Rest(h));
        SaidAppend(if !Blank(m.content) then [m.(toolCalls := [])] else [], StripInvalid(j, Rest(h)));
        InvalidSays(j, m);
      }
    }
  }

  lemma {:induction false} StripFromSays(h: seq<Message>, tool: string, ids: set<string>)
    requires tool != ""
    ensures Said(StripFrom(h, tool, ids)) == Said(h)
  {
    if h != [] {
      var m := h[0];
      var ids' := if IsBatch(m) then NamedIds(m.toolCalls, tool) else if m.role == Tool then ids else {};
      StripFromSays(h[1..], tool, ids');
      var rest := StripFrom(h[1..], tool, ids');
      var kept := StripFrom(h, tool, ids)[..|StripFrom(h, tool, ids)| - |rest|];
      assert StripFrom(h, tool, ids) == kept + rest;
      SaidAppend(kept, rest);
      if kept != [] { SaidOne(kept[0]); assert kept == [kept[0]]; }
    }
  }

  lemma {:induction false} SaidCons(m: Message, rest: seq<Message>)
    ensures Said([m] + rest) == (if m.role == Tool || IsBatch(m) then [] else [m.(toolCalls := [])]) + Said(rest)
  {
    assert ([m] + rest)[1..] == rest;
  }

  lemma {:induction false} BatchSays(m: Message, block: seq<Message>, rest: seq<Message>)
    requires IsBatch(m) && AllTools(block)
    ensures Said([m] + block + rest) == Said(rest)
  {
    assert [m] + block + rest == [m] + (block + rest);
    SaidCons(m, block + rest);
    SaidAppend(block, rest);
    ToolsSayNothing(block, Json(s => false, s => false));
  }

  lemma {:induction false} SanitizeFromSays(j: Json, h: seq<Message>)
    ensures Said(SanitizeFrom(j, h)) == Said(h)
    decreases |h|
  {
    hide Said, CompleteBatch, AllowedResults, CallIds;
    if h != [] {
      var m := h[0];
      assert h == [m] + h[1..];
      if !IsBatch(m) {
        SaidCons(m, h[1..]);
        SaidCons(m, SanitizeFrom(j, h[1..]));
        SanitizeFromSays(j, h[1..]);
      } else {
        var block, rest := Block(h), Rest(h);
        var allowed := AllowedResults(block, CallIds(m.toolCalls));
        SanitizeFromSays(j, rest);
        AllowedProperties(block, CallIds(m.toolCalls));
        BatchSays(m, block, rest);
        BatchSays(m, allowed, SanitizeFrom(j, rest));
        assert [] + SanitizeFrom(j, rest) == SanitizeFrom(j, rest);
      }
    }
  }

  lemma {:induction false} FirstUserSays(h: seq<Message>)
    ensures Said(FromFirstUser(h)) == FromFirstUser(Said(h))
  {
    if h != [] {
      if h[0].role == User {
        assert Said(h)[0].role == User;
      } else {
        FirstUserSays(h[1..]);
        var head := if h[0].role == Tool || IsBatch(h[0]) then [] else [h[0].(toolCalls := [])];
        if head == [] {
          assert Said(h) == Said(h[1..]);
        } else {
          assert Said(h)[1..] == Said(h[1..]);
        }
      }
    }
  }

  lemma {:induction false} CompactSays(j: Json, h: seq<Message>, kept: set<string>)
    ensures Said(CompactWith(j, h, kept)) == Said(h)
  {
    if h != [] {
      CompactSays(j, h[1..], kept);
      assert CompactWith(j, h, kept)[1..] == CompactWith(j, h[1..], kept);
    }
  }

  /** The planner sees the whole conversation: every turn that is no result and no batch of
      calls, and the text of malformed turns, in order; from the first user turn on if there
      is a terminal policy. */
  lemma {:induction false} PlannerHistorySays(j: Json, h: seq<Message>, terminalTool: string, hasPrepare: bool)
    ensures Said(PlannerHistory(j, h, terminalTool, hasPrepare))
         == if terminalTool != "" then FromFirstUser(Conversation(j, h)) else Conversation(j, h)
  {
    var h0 := StripInvalid(j, h);
    var h1 := StripTerminal(h0, terminalTool);
    var h2 := if hasPrepare then StripTerminal(h1, PREPARE_SUMMARY_DRAFT) else h1;
    var h3 := if terminalTool != "" then Sanitize(j, h2) else h2;
    StripInvalidSays(j, h);
    if terminalTool != "" {
      StripFromSays(h0, terminalTool, {});
      SanitizeFromSays(j, FromFirstUser(h2));
      FirstUserSays(h2);
    }
    if hasPrepare { StripFromSays(h1, PREPARE_SUMMARY_DRAFT, {}); }
    CompactSays(j, h3, KeptArgIds(j, h3));
  }

  // ----- Rounds -----

  lemma {:induction false} JoinedBlock(a: seq<Message>, x: seq<Message>)
    requires a != [] && !StartsWithTool(x)
    ensures Block(a + x) == Block(a) && Rest(a + x) == Rest(a) + x
  {
    assert a + x == [a[0]] + Block(a) + (Rest(a) + x);
    assert !StartsWithTool(Rest(a) + x);
    BatchInFront(a[0], Block(a), Rest(a) + x);
  }

  lemma {:induction false} StripInvalidSplit(j: Json, a: seq<Message>, x: seq<Message>)
    requires !StartsWithTool(x)
    ensures StripInvalid(j, a + x) == StripInvalid(j, a) + StripInvalid(j, x)
    decreases |a|
  {
    hide ValidArguments, Block, Rest, StartsWithTool;
    if a == [] {
      assert a + x == x;
    } else {
      assert (a + x)[0] == a[0] && (a + x)[1..] == a[1..] + x;
      if ValidArguments(j, a[0].toolCalls) {
        StripInvalidSplit(j, a[1..], x);
      } else {
        JoinedBlock(a, x);
        StripInvalidSplit(j, Rest(a), x);
      }
    }
  }

  lemma {:induction false} StripInvalidKeeps(j: Json, x: seq<Message>, b: seq<Message>)
    requires AllValid(j, x)
    ensures StripInvalid(j, x + b) == x + StripInvalid(j, b)
  {
    hide ValidArguments;
    if x == [] {
      assert x + b == b;
    } else {
      assert (x + b)[0] == x[0] && (x + b)[1..] == x[1..] + b;
      assert ValidArguments(j, x[0].toolCalls) && AllValid(j, x[1..]);
      StripInvalidKeeps(j, x[1..], b);
    }
  }

  /** What stays of one message, and the calls of the tool that are open behind it. */
  function StripOne(m: Message, tool: string, ids: set<string>): (seq<Message>, set<string>) {
    if IsBatch(m) then (match WithoutCalls(m, tool) case Some(kept) => [kept] case None => [], NamedIds(m.toolCalls, tool))
    else if m.role == Tool then (if m.name == tool || m.toolCallId in ids then [] else [m], ids)
    else ([m], {})
  }

  lemma {:induction false} StripStep(h: seq<Message>, tool: string, ids: set<string>)
    requires h != []
    ensures StripFrom(h, tool, ids) == StripOne(h[0], tool, ids).0 + StripFrom(h[1..], tool, StripOne(h[0], tool, ids).1)
  {
    hide WithoutCalls, NamedIds;
  }

  lemma {:induction false} StripAtBatch(x: seq<Message>, tool: string, ids: set<string>)
    requires x != [] && IsBatch(x[0])
    ensures StripFrom(x, tool, ids) == StripFrom(x, tool, {}) && StripFrom([], tool, ids) == []
  {
    hide WithoutCalls, NamedIds;
  }

  lemma {:induction false} StripFromSplit(a: seq<Message>, x: seq<Message>, tool: string, ids: set<string>)
    requires x != [] && IsBatch(x[0])
    ensures StripFrom(a + x, tool, ids) == StripFrom(a, tool, ids) + StripFrom(x, tool, {})
  {
    hide StripFrom, StripOne, IsBatch;
    if a == [] {
      assert a + x == x;
      StripAtBatch(x, tool, ids);
    } else {
      assert (a + x)[0] == a[0] && (a + x)[1..] == a[1..] + x;
      StripStep(a + x, tool, ids);
      StripStep(a, tool, ids);
      var (one, ids') := StripOne(a[0], tool, ids);
      StripFromSplit(a[1..], x, tool, ids');
      ConcatAssoc(one, StripFrom(a[1..], tool, ids'), StripFrom(x, tool, {}));
    }
  }

  lemma {:induction false} StripKeepsOne(m: Message, tool: string)
    requires tool != "" && MessageWithout(m, tool)
    ensures StripOne(m, tool, {}) == ([m], {})
  {
    OrdinaryCallsOf(m.toolCalls, tool);
    assert m.role == Assistant ==> NamedIds(m.toolCalls, tool) == {};
  }

  lemma {:induction false} StripFromKeeps(x: seq<Message>, b: seq<Message>, tool: string)
    requires tool != "" && Without(x, tool)
    ensures StripFrom(x + b, tool, {}) == x + StripFrom(b, tool, {})
  {
    hide StripFrom, StripOne, MessageWithout;
    if x == [] {
      assert x + b == b;
    } else {
      assert MessageWithout(x[0], tool) && Without(x[1..], tool);
      assert (x + b)[0] == x[0] && (x + b)[1..] == x[1..] + b;
      StripStep(x + b, tool, {});
      StripKeepsOne(x[0], tool);
      StripFromKeeps(x[1..], b, tool);
    }
  }

  /** One stripping pass around a round that has nothing of the tool. */
  lemma {:induction false} RoundPassesStrip(a: seq<Message>, x: seq<Message>, b: seq<Message>, tool: string)
    requires x != [] && IsBatch(x[0]) && Without(x, tool)
    ensures StripTerminal(a + x + b, tool) == StripTerminal(a, tool) + x + StripTerminal(b, tool)
  {
    if tool != "" {
      assert a + x + b == a + (x + b);
      StripFromSplit(a, x + b, tool, {});
      StripFromKeeps(x, b, tool);
      ConcatAssoc(StripFrom(a, tool, {}), x, StripFrom(b, tool, {}));
    }
  }

  lemma {:induction false} SanitizeFromSplit(j: Json, a: seq<Message>, x: seq<Message>)
    requires !StartsWithTool(x)
    ensures SanitizeFrom(j, a + x) == SanitizeFrom(j, a) + SanitizeFrom(j, x)
    decreases |a|
  {
    hide CompleteBatch, AllowedResults, CallIds, Block, Rest, StartsWithTool;
    if a == [] {
      assert a + x == x;
    } else {
      assert (a + x)[0] == a[0] && (a + x)[1..] == a[1..] + x;
      if IsBatch(a[0]) {
        JoinedBlock(a, x);
        SanitizeFromSplit(j, Rest(a), x);
      } else {
        SanitizeFromSplit(j, a[1..], x);
      }
    }
  }

  lemma {:induction false} ResultIdsAppend(a: seq<Message>, b: seq<Message>)
    ensures ResultIds(a + b) == ResultIds(a) + ResultIds(b)
  {
    if a == [] {
      assert a + b == b;
    } else {
      assert (a + b)[0] == a[0] && (a + b)[1..] == a[1..] + b;
      ResultIdsAppend(a[1..], b);
    }
  }

  lemma {:induction false} AllowedAppend(a: seq<Message>, b: seq<Message>, ids: set<string>)
    ensures AllowedResults(a + b, ids) == AllowedResults(a, ids) + AllowedResults(b, ids)
  {
    if a == [] {
      assert a + b == b;
    } else {
      assert (a + b)[0] == a[0] && (a + b)[1..] == a[1..] + b;
      AllowedAppend(a[1..], b, ids);
    }
  }

  /** The first message behind the leading results. */
  lemma {:induction false} LeadingTools(b: seq<Message>) returns (n: nat)
    ensures n <= |b| && AllTools(b[..n]) && !StartsWithTool(b[n..])
  {
    n := ToolRun(b);
  }

  lemma {:induction false} CompleteStill(j: Json, calls: seq<Call>, block: seq<Message>, more: seq<Message>)
    requires CompleteBatch(j, calls, block)
    ensures CompleteBatch(j, calls, block + more)
  {
    ResultIdsAppend(block, more);
  }

  lemma {:induction false} SanitizeRound(j: Json, m: Message, block: seq<Message>, rest: seq<Message>)
    requires IsBatch(m) && AllTools(block) && !StartsWithTool(rest) && CompleteBatch(j, m.toolCalls, block)
    ensures SanitizeFrom(j, [m] + block + rest) == [m] + AllowedResults(block, CallIds(m.toolCalls)) + SanitizeFrom(j, rest)
  {
    hide AllowedResults, CallIds, CompleteBatch;
    var h := [m] + block + rest;
    BatchInFront(m, block, rest);
    assert h[0] == m;
  }

  lemma {:induction false} RoundPassesSanitize(j: Json, m: Message, block: seq<Message>, b: seq<Message>) returns (after: seq<Message>)
    requires IsBatch(m) && AllTools(block) && CompleteBatch(j, m.toolCalls, block)
    ensures SanitizeFrom(j, [m] + block + b) == [m] + AllowedResults(block, CallIds(m.toolCalls)) + after
  {
    hide AllowedResults, CallIds, CompleteBatch, SanitizeFrom;
    var n := LeadingTools(b);
    var ids := CallIds(m.toolCalls);
    assert b == b[..n] + b[n..] && [m] + block + b == [m] + (block + b[..n]) + b[n..];
    CompleteStill(j, m.toolCalls, block, b[..n]);
    SanitizeRound(j, m, block + b[..n], b[n..]);
    AllowedAppend(block, b[..n], ids);
    after := AllowedResults(b[..n], ids) + SanitizeFrom(j, b[n..]);
    assert [m] + (AllowedResults(block, ids) + AllowedResults(b[..n], ids)) + SanitizeFrom(j, b[n..]) == [m] + AllowedResults(block, ids) + after;
  }

  lemma {:induction false} FirstUserSplit(a: seq<Message>, x: seq<Message>)
    requires FromFirstUser(a) != []
    ensures FromFirstUser(a + x) == FromFirstUser(a) + x
  {
    if a[0].role != User {
      assert (a + x)[0] == a[0] && (a + x)[1..] == a[1..] + x;
      FirstUserSplit(a[1..], x);
    }
  }

  /** A round of ordinary calls, all answered right behind it, reaches the planner whole: the
      turn with all its calls, and right behind it its results in order; only expired
      payloads are compacted. */
  lemma {:induction false} AnsweredRoundSurvives(j: Json, a: seq<Message>, m: Message, block: seq<Message>, b: seq<Message>,
                                                 terminalTool: string, hasPrepare: bool)
    returns (before: seq<Message>, after: seq<Message>, kept: set<string>)
    requires IsBatch(m) && AllTools(block) && CompleteBatch(j, m.toolCalls, block) && AllValid(j, block)
    requires Without([m] + block, terminalTool) && (hasPrepare ==> Without([m] + block, PREPARE_SUMMARY_DRAFT))
    requires terminalTool != "" && FromFirstUser(Conversation(j, a)) != []
    ensures PlannerHistory(j, a + ([m] + block) + b, terminalTool, hasPrepare)
         == CompactWith(j, before, kept) + CompactWith(j, [m] + AllowedResults(block, CallIds(m.toolCalls)), kept) + CompactWith(j, after, kept)
  {
    hide CompactWith, AllowedResults, CallIds, CompleteBatch, FromFirstUser, Without, StripInvalid, StripTerminal, SanitizeFrom, Conversation, Said, AllValid;
    var x := [m] + block;
    var t1, a1, b1 := TwoPasses(j, a, m, block, b, terminalTool);
    var a2, b2 := if hasPrepare then StripTerminal(a1, PREPARE_SUMMARY_DRAFT) else a1, if hasPrepare then StripTerminal(b1, PREPARE_SUMMARY_DRAFT) else b1;
    if hasPrepare {
      RoundPassesStrip(a1, x, b1, PREPARE_SUMMARY_DRAFT);
      PrepareSays(a1);
    }
    FirstUserSays(a2);
    NothingSays();
    assert FromFirstUser(a2) != [];
    assert a2 + x + b2 == a2 + (x + b2);
    FirstUserSplit(a2, x + b2);
    NotTool(x + b2);
    SanitizeFromSplit(j, FromFirstUser(a2), x + b2);
    var tail := RoundPassesSanitize(j, m, block, b2);
    var round := [m] + AllowedResults(block, CallIds(m.toolCalls));
    before, after := SanitizeFrom(j, FromFirstUser(a2)), tail;
    var h3 := before + (round + after);
    kept := KeptArgIds(j, h3);
    CompactAppend(j, before, round + after, kept);
    CompactAppend(j, round, after, kept);
    ConcatAssoc(CompactWith(j, before, kept), CompactWith(j, round, kept), CompactWith(j, after, kept));
  }

  lemma {:induction false} NotTool(x: seq<Message>)
    requires x != [] && IsBatch(x[0])
    ensures !StartsWithTool(x)
  {
  }

  lemma {:induction false} NothingSays()
    ensures Said([]) == []
  {
  }

  lemma {:induction false} PrepareSays(h: seq<Message>)
    ensures Said(StripTerminal(h, PREPARE_SUMMARY_DRAFT)) == Said(h)
  {
    StripFromSays(h, PREPARE_SUMMARY_DRAFT, {});
  }

  /** The passes for malformed batches and for the terminal tool around a clean round. */
  lemma {:induction false} TwoPasses(j: Json, a: seq<Message>, m: Message, block: seq<Message>, b: seq<Message>, terminalTool: string)
    returns (h: seq<Message>, a': seq<Message>, b': seq<Message>)
    requires IsBatch(m) && AllTools(block) && CompleteBatch(j, m.toolCalls, block) && AllValid(j, block)
    requires Without([m] + block, terminalTool) && terminalTool != ""
    ensures h == StripTerminal(StripInvalid(j, a + ([m] + block) + b), terminalTool) == a' + ([m] + block) + b'
    ensures Said(a') == Conversation(j, a)
  {
    var x := [m] + block;
    assert AllValid(j, x);
    assert a + x + b == a + (x + b);
    StripInvalidSplit(j, a, x + b);
    StripInvalidKeeps(j, x, b);
    StripInvalidSays(j, a);
    var a0, b0 := StripInvalid(j, a), StripInvalid(j, b);
    ConcatAssoc(a0, x, b0);
    RoundPassesStrip(a0, x, b0, terminalTool);
    StripFromSays(a0, terminalTool, {});
    a', b' := StripTerminal(a0, terminalTool), StripTerminal(b0, terminalTool);
    h := a' + x + b';
  }

  // ----- Compaction -----

  /** A failed result of the call is still there. */
  ghost predicate FailedResult(j: Json, h: seq<Message>, id: string) {
    id != "" && exists k :: 0 <= k < |h| && h[k].role == Tool && h[k].toolCallId == id && j.isError(h[k].content)
  }

  /** Compaction changes payloads only: exactly the successful results of Map and Reduce and
      the arguments of Reduce calls, except short ones whose failed result is kept. */
  lemma {:induction false} CompactMeaning(j: Json, h: seq<Message>, k: nat)
    requires k < |h|
    ensures |Compact(j, h)| == |h|
    ensures var m, m' := h[k], Compact(j, h)[k];
      && m' == m.(content := m'.content, toolCalls := m'.toolCalls) && |m'.toolCalls| == |m.toolCalls|
      && (m'.content == if m.role == Tool && !j.isError(m.content) && m.name == SUMMARIZE_CHUNK then COMPACTED_MAP_RESULT
                        else if m.role == Tool && !j.isError(m.content) && m.name == MERGE_SUMMARIES then COMPACTED_REDUCE_RESULT
                        else m.content)
      && forall c :: 0 <= c < |m.toolCalls| ==>
           m'.toolCalls[c] == if m.toolCalls[c].name != MERGE_SUMMARIES then m.toolCalls[c]
                              else if FailedResult(j, h, m.toolCalls[c].id) && ByteLen(m.toolCalls[c].arguments) <= MAX_RETAINED_FAILED_REDUCE_ARGS then m.toolCalls[c]
                              else m.toolCalls[c].(arguments := COMPACTED_REDUCE_ARGS)
  {
    forall id ensures id in KeptArgIds(j, h) <==> FailedResult(j, h, id) {}
  }
}
