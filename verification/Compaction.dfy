/** Compaction of summary payloads in past turns (history.go, compactSummaryToolHistory),
    and the normal form of what a planner sees of the past. */
module Compaction {
  import opened GoText
  import opened Transcript

  /** The arguments of one turn's calls, rewritten in a copy. */
  method CompactArguments(calls: seq<Call>, keepArgs: set<string>) returns (rewritten: seq<Call>)
    ensures rewritten == seq(|calls|, i requires 0 <= i < |calls| => CompactCall(calls[i], keepArgs))
  {
    var copy := new Call[|calls|](i requires 0 <= i < |calls| => calls[i]);
    for j := 0 to copy.Length
      invariant forall k :: 0 <= k < copy.Length ==> copy[k] == if k < j then CompactCall(calls[k], keepArgs) else calls[k]
    {
      if copy[j].name != MERGE_SUMMARIES {
        continue;
      }
      if copy[j].id in keepArgs && ByteLen(copy[j].arguments) <= MAX_RETAINED_FAILED_REDUCE_ARGS {
        continue;
      }
      copy[j] := copy[j].(arguments := COMPACTED_REDUCE_ARGS);
    }
    rewritten := copy[..];
  }

  /** A message after the pass over the results. */
  function Shortened(j: Json, m: Message): Message {
    m.(content := CompactMessage(j, m, {}).content)
  }

  method CompactSummaryToolHistory(j: Json, history: seq<Message>) returns (result: seq<Message>)
    ensures result == Compact(j, history)
  {
    if history == [] {
      return history;
    }
    var keepArgs := FailedCallIds(j, history);
    var out := new Message[|history|](i requires 0 <= i < |history| => history[i]);
    for i := 0 to out.Length
      invariant forall k :: 0 <= k < out.Length ==> out[k] == if k < i then Shortened(j, history[k]) else history[k]
    {
      if out[i].role != Tool || j.isError(out[i].content) {
        continue;
      }
      if out[i].name == SUMMARIZE_CHUNK {
        out[i] := out[i].(content := COMPACTED_MAP_RESULT);
      } else if out[i].name == MERGE_SUMMARIES {
        out[i] := out[i].(content := COMPACTED_REDUCE_RESULT);
      }
    }
    for i := 0 to out.Length
      invariant forall k :: 0 <= k < out.Length ==>
                  out[k] == if k < i then CompactMessage(j, history[k], keepArgs) else Shortened(j, history[k])
    {
      var calls := CompactArguments(out[i].toolCalls, keepArgs);
      out[i] := out[i].(toolCalls := calls);
    }
    result := out[..];
  }

  /** The calls whose results are kept as diagnostics. */
  method FailedCallIds(j: Json, history: seq<Message>) returns (keepArgs: set<string>)
    ensures keepArgs == KeptArgIds(j, history)
  {
    keepArgs := {};
    for i := 0 to |history|
      invariant keepArgs == KeptArgIds(j, history[..i])
    {
      KeptArgNext(j, history[..i], history[i]);
      TakeNext(history, i);
      if history[i].role == Tool && j.isError(history[i].content) && history[i].toolCallId != "" {
        keepArgs := keepArgs + {history[i].toolCallId};
      }
    }
    assert history[..|history|] == history;
  }

  lemma {:induction false} KeptArgNext(j: Json, h: seq<Message>, m: Message)
    ensures KeptArgIds(j, h + [m])
         == KeptArgIds(j, h) + if m.role == Tool && j.isError(m.content) && m.toolCallId != "" then {m.toolCallId} else {}
  {
    var all := h + [m];
    forall id | id in KeptArgIds(j, h) ensures id in KeptArgIds(j, all) {
      var i :| 0 <= i < |h| && h[i].role == Tool && j.isError(h[i].content) && h[i].toolCallId == id && id != "";
      assert all[i] == h[i];
    }
    assert all[|h|] == m;
  }

  // ----- Compaction is a normal form -----

  /** The placeholders are what the service's own checks take them for: a call's arguments
      object, and results that are no errors. */
  ghost predicate Placeholders(j: Json) {
    j.isObject(COMPACTED_REDUCE_ARGS) && !j.isError(COMPACTED_MAP_RESULT) && !j.isError(COMPACTED_REDUCE_RESULT)
  }

  lemma {:induction false} CallTwice(c: Call, kept: set<string>)
    ensures CompactCall(CompactCall(c, kept), kept) == CompactCall(c, kept)
  {
  }

  lemma {:induction false} MessageTwice(j: Json, m: Message, kept: set<string>)
    requires Placeholders(j)
    ensures CompactMessage(j, CompactMessage(j, m, kept), kept) == CompactMessage(j, m, kept)
    ensures j.isError(CompactMessage(j, m, kept).content) && m.role == Tool <==> j.isError(m.content) && m.role == Tool
  {
    var once := CompactMessage(j, m, kept);
    forall k | 0 <= k < |once.toolCalls| ensures CompactCall(once.toolCalls[k], kept) == once.toolCalls[k] {
      CallTwice(m.toolCalls[k], kept);
    }
    assert CompactMessage(j, once, kept).toolCalls == once.toolCalls;
  }

  /** Compaction keeps exactly the diagnostics it would keep again. */
  lemma {:induction false} KeptArgsStable(j: Json, h: seq<Message>, kept: set<string>)
    requires Placeholders(j)
    ensures KeptArgIds(j, CompactWith(j, h, kept)) == KeptArgIds(j, h)
  {
    var c := CompactWith(j, h, kept);
    forall i | 0 <= i < |h|
      ensures c[i].role == h[i].role && c[i].toolCallId == h[i].toolCallId && (h[i].role == Tool ==> j.isError(c[i].content) == j.isError(h[i].content))
    {
      MessageTwice(j, h[i], kept);
    }
  }

  lemma {:induction false} CompactIdempotent(j: Json, h: seq<Message>)
    requires Placeholders(j)
    ensures Compact(j, Compact(j, h)) == Compact(j, h)
  {
    var kept := KeptArgIds(j, h);
    KeptArgsStable(j, h, kept);
    forall i | 0 <= i < |h| ensures CompactMessage(j, CompactMessage(j, h[i], kept), kept) == CompactMessage(j, h[i], kept) {
      MessageTwice(j, h[i], kept);
    }
  }

  // ----- Argument validity through the pipeline -----

  lemma {:induction false} StripInvalidIsValid(j: Json, h: seq<Message>)
    ensures AllValid(j, StripInvalid(j, h))
    decreases |h|
  {
    if h != [] {
      if ValidArguments(j, h[0].toolCalls) {
        StripInvalidIsValid(j, h[1..]);
      } else {
        StripInvalidIsValid(j, Rest(h));
      }
    }
  }

  lemma {:induction false} StripFromKeepsValid(j: Json, h: seq<Message>, tool: string, ids: set<string>)
    requires AllValid(j, h)
    ensures AllValid(j, StripFrom(h, tool, ids))
  {
    if h != [] {
      var m := h[0];
      var ids' := if IsBatch(m) then NamedIds(m.toolCalls, tool) else if m.role == Tool then ids else {};
      assert ValidArguments(j, m.toolCalls) && AllValid(j, h[1..]);
      StripFromKeepsValid(j, h[1..], tool, ids');
      OrdinaryAreValid(j, m.toolCalls, tool);
    }
  }

  lemma {:induction false} OrdinaryAreValid(j: Json, calls: seq<Call>, tool: string)
    requires ValidArguments(j, calls)
    ensures ValidArguments(j, OrdinaryCalls(calls, tool))
  {
    OrdinaryCallsOf(calls, tool);
    var o := OrdinaryCalls(calls, tool);
    forall k | 0 <= k < |o| ensures j.isObject(o[k].arguments) {
      var i :| 0 <= i < |calls| && calls[i] == o[k];
    }
  }

  /** Sanitising only drops messages. */
  lemma {:induction false} SanitizeFromSelects(j: Json, h: seq<Message>)
    ensures forall m :: m in SanitizeFrom(j, h) ==> m in h
    decreases |h|
  {
    if h != [] {
      if h[0].role == Tool || !IsBatch(h[0]) {
        SanitizeFromSelects(j, h[1..]);
      } else {
        SanitizeFromSelects(j, Rest(h));
        AllowedSelects(Block(h), CallIds(h[0].toolCalls));
      }
    }
  }

  lemma {:induction false} AllowedSelects(block: seq<Message>, ids: set<string>)
    ensures forall m :: m in AllowedResults(block, ids) ==> m in block
  {
    if block != [] {
      AllowedSelects(block[1..], ids);
    }
  }

  lemma {:induction false} FromFirstUserSelects(h: seq<Message>)
    ensures forall m :: m in FromFirstUser(h) ==> m in h
  {
    if h != [] && h[0].role != User {
      FromFirstUserSelects(h[1..]);
    }
  }

  lemma {:induction false} SanitizeKeepsValid(j: Json, h: seq<Message>)
    requires AllValid(j, h)
    ensures AllValid(j, Sanitize(j, h))
  {
    SanitizeFromSelects(j, FromFirstUser(h));
    FromFirstUserSelects(h);
    var s := Sanitize(j, h);
    forall i | 0 <= i < |s| ensures ValidArguments(j, s[i].toolCalls) {
      assert s[i] in h;
      var k :| 0 <= k < |h| && h[k] == s[i];
    }
  }

  lemma {:induction false} CompactKeepsValid(j: Json, h: seq<Message>, kept: set<string>)
    requires AllValid(j, h) && Placeholders(j)
    ensures AllValid(j, CompactWith(j, h, kept))
  {
    var c := CompactWith(j, h, kept);
    forall i, k | 0 <= i < |c| && 0 <= k < |c[i].toolCalls| ensures j.isObject(c[i].toolCalls[k].arguments) {
      assert ValidArguments(j, h[i].toolCalls);
      assert c[i].toolCalls[k] == CompactCall(h[i].toolCalls[k], kept);
    }
  }

  /** What a planner sees of the past is a normal form: stored and shown again it would
      pass through all five passes unchanged. */
  lemma {:induction false} PlannerHistoryIdempotent(j: Json, h: seq<Message>, terminalTool: string)
    requires terminalTool != "" && Placeholders(j)
    ensures var shown := PlannerHistory(j, h, terminalTool, true); PlannerHistory(j, shown, terminalTool, true) == shown
  {
    var h0 := StripInvalid(j, h);
    var h1 := StripTerminal(h0, terminalTool);
    var h2 := StripTerminal(h1, PREPARE_SUMMARY_DRAFT);
    var s := Sanitize(j, h2);
    StripInvalidIsValid(j, h);
    StripFromKeepsValid(j, h0, terminalTool, {});
    StripFromKeepsValid(j, h1, PREPARE_SUMMARY_DRAFT, {});
    SanitizeKeepsValid(j, h2);
    CompactKeepsValid(j, s, KeptArgIds(j, s));
    PlannerHistoryIsProtocol(j, h, terminalTool);
    CleanPassesUnchanged(j, Compact(j, s), terminalTool);
    CompactIdempotent(j, s);
  }
}
