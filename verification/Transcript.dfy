/** The passes that turn stored history into a transcript an OpenAI-compatible endpoint
    accepts (history.go), and the pipeline the runner builds from them. */
module Transcript {
  import opened GoText

  datatype Role = User | Assistant | Tool | Other(name: string)

  datatype Call = Call(id: string, name: string, arguments: string)

  datatype Message = Message(
    role: Role,
    content: string,
    toolCalls: seq<Call>,
    toolCallId: string,
    name: string)

  /** The JSON questions the passes ask, as oracles: whether a string is a JSON object,
      and whether a tool result is an error. */
  datatype Json = Json(isObject: string -> bool, isError: string -> bool)

  const PREPARE_SUMMARY_DRAFT := "prepare_summary_draft"
  const SUMMARIZE_CHUNK := "summarize_chunk"
  const MERGE_SUMMARIES := "merge_summaries"
  const COMPACTED_MAP_RESULT := "{\"summary_handle\":\"__history__\",\"chunk_count\":0,\"history_compacted\":true,\"note\":\"Map summary body omitted; historical handles are expired\"}"
  const COMPACTED_REDUCE_RESULT := "{\"merged_summary\":\"\",\"chunk_count\":0,\"history_compacted\":true,\"note\":\"Reduce result omitted; use the final assistant message from that turn\"}"
  const COMPACTED_REDUCE_ARGS := "{\"summary_handles\":[\"__compacted__\"]}"
  const MAX_RETAINED_FAILED_REDUCE_ARGS := 8192

  predicate ValidArguments(j: Json, calls: seq<Call>) {
    forall i :: 0 <= i < |calls| ==> j.isObject(calls[i].arguments)
  }

  /** Number of tool messages at the front. */
  function ToolRun(h: seq<Message>): (n: nat)
    ensures n <= |h|
    ensures forall i :: 0 <= i < n ==> h[i].role == Tool
    ensures n < |h| ==> h[n].role != Tool
  {
    if h == [] || h[0].role != Tool then 0 else 1 + ToolRun(h[1..])
  }

  /** The tool messages right after the first message. */
  function Block(h: seq<Message>): (block: seq<Message>)
    requires h != []
    ensures AllTools(block)
  {
    h[1..1 + ToolRun(h[1..])]
  }

  /** What follows the first message and its block. */
  function Rest(h: seq<Message>): (rest: seq<Message>)
    requires h != []
    ensures |rest| < |h| && !StartsWithTool(rest) && h == [h[0]] + Block(h) + rest
  {
    h[1 + ToolRun(h[1..])..]
  }

  predicate AllTools(block: seq<Message>) {
    forall i :: 0 <= i < |block| ==> block[i].role == Tool
  }

  predicate StartsWithTool(h: seq<Message>) {
    h != [] && h[0].role == Tool
  }

  predicate IsBatch(m: Message) {
    m.role == Assistant && m.toolCalls != []
  }

  function CallIds(calls: seq<Call>): set<string> {
    if calls == [] then {} else {calls[0].id} + CallIds(calls[1..])
  }

  function ResultIds(block: seq<Message>): set<string> {
    if block == [] then {} else {block[0].toolCallId} + ResultIds(block[1..])
  }

  // ----- Strip malformed batches -----

  function StripInvalid(j: Json, h: seq<Message>): seq<Message>
    decreases |h|
  {
    if h == [] then []
    else if ValidArguments(j, h[0].toolCalls) then [h[0]] + StripInvalid(j, h[1..])
    else (if !Blank(h[0].content) then [h[0].(toolCalls := [])] else [])
         + StripInvalid(j, Rest(h))
  }

  // ----- Strip one tool's calls and results -----

  function OrdinaryCalls(calls: seq<Call>, tool: string): seq<Call> {
    if calls == [] then []
    else if calls[0].name != tool then [calls[0]] + OrdinaryCalls(calls[1..], tool)
    else OrdinaryCalls(calls[1..], tool)
  }

  /** withoutTerminalToolCalls: None when nothing ordinary remains. */
  function WithoutCalls(m: Message, tool: string): Option<Message> {
    if tool == "" || m.toolCalls == [] then Some(m)
    else
      var filtered := OrdinaryCalls(m.toolCalls, tool);
      if filtered == [] then None
      else if |filtered| != |m.toolCalls| then Some(m.(toolCalls := filtered, content := ""))
      else Some(m.(toolCalls := filtered))
  }

  function NamedIds(calls: seq<Call>, tool: string): set<string> {
    set i | 0 <= i < |calls| && calls[i].name == tool && calls[i].id != "" :: calls[i].id
  }

  /** `ids` are the stripped call ids of the current assistant batch. */
  function StripFrom(h: seq<Message>, tool: string, ids: set<string>): seq<Message> {
    if h == [] then []
    else
      var m := h[0];
      if IsBatch(m) then
        (match WithoutCalls(m, tool) case Some(kept) => [kept] case None => [])
        + StripFrom(h[1..], tool, NamedIds(m.toolCalls, tool))
      else if m.role == Tool then
        (if m.name == tool || m.toolCallId in ids then [] else [m]) + StripFrom(h[1..], tool, ids)
      else [m] + StripFrom(h[1..], tool, {})
  }

  function StripTerminal(h: seq<Message>, tool: string): seq<Message> {
    if tool == "" then h else StripFrom(h, tool, {})
  }

  // ----- Sanitise -----

  predicate CompleteBatch(j: Json, calls: seq<Call>, block: seq<Message>) {
    && ValidArguments(j, calls)
    && forall i :: 0 <= i < |calls| ==> calls[i].id != "" && calls[i].id in ResultIds(block)
  }

  function AllowedResults(block: seq<Message>, ids: set<string>): seq<Message> {
    if block == [] then []
    else (if block[0].toolCallId in ids then [block[0]] else []) + AllowedResults(block[1..], ids)
  }

  function SanitizeFrom(j: Json, h: seq<Message>): seq<Message>
    decreases |h|
  {
    if h == [] then []
    else if h[0].role == Tool then SanitizeFrom(j, h[1..])
    else if !IsBatch(h[0]) then [h[0]] + SanitizeFrom(j, h[1..])
    else
      (if CompleteBatch(j, h[0].toolCalls, Block(h))
       then [h[0]] + AllowedResults(Block(h), CallIds(h[0].toolCalls)) else [])
      + SanitizeFrom(j, Rest(h))
  }

  function FromFirstUser(h: seq<Message>): (r: seq<Message>)
    ensures r != [] ==> r[0].role == User
  {
    if h == [] || h[0].role == User then h else FromFirstUser(h[1..])
  }

  function Sanitize(j: Json, h: seq<Message>): seq<Message> {
    SanitizeFrom(j, FromFirstUser(h))
  }

  // ----- Compact -----

  function KeptArgIds(j: Json, h: seq<Message>): set<string> {
    set i | 0 <= i < |h| && h[i].role == Tool && j.isError(h[i].content) && h[i].toolCallId != "" :: h[i].toolCallId
  }

  function CompactCall(c: Call, kept: set<string>): Call {
    if c.name == MERGE_SUMMARIES && !(c.id in kept && ByteLen(c.arguments) <= MAX_RETAINED_FAILED_REDUCE_ARGS)
    then c.(arguments := COMPACTED_REDUCE_ARGS) else c
  }

  function CompactMessage(j: Json, m: Message, kept: set<string>): Message {
    m.(content :=
         if m.role != Tool || j.isError(m.content) then m.content
         else if m.name == SUMMARIZE_CHUNK then COMPACTED_MAP_RESULT
         else if m.name == MERGE_SUMMARIES then COMPACTED_REDUCE_RESULT
         else m.content,
       toolCalls := seq(|m.toolCalls|, i requires 0 <= i < |m.toolCalls| => CompactCall(m.toolCalls[i], kept)))
  }

  function CompactWith(j: Json, h: seq<Message>, kept: set<string>): seq<Message> {
    seq(|h|, i requires 0 <= i < |h| => CompactMessage(j, h[i], kept))
  }

  function Compact(j: Json, h: seq<Message>): seq<Message> {
    CompactWith(j, h, KeptArgIds(j, h))
  }

  /** Everything a planner sees of the past (runner.go, lines 141-148). */
  function PlannerHistory(j: Json, h: seq<Message>, terminalTool: string, hasPrepare: bool): seq<Message> {
    var h1 := StripTerminal(StripInvalid(j, h), terminalTool);
    var h2 := if hasPrepare then StripTerminal(h1, PREPARE_SUMMARY_DRAFT) else h1;
    var h3 := if terminalTool != "" then Sanitize(j, h2) else h2;
    Compact(j, h3)
  }

  // ----- The protocol -----

  /** A transcript is a sequence of plain messages and of call batches, each immediately
      followed by exactly the block of its results: every call has valid arguments and a
      nonempty id that is answered in the block, and every result answers one. */
  predicate Protocol(j: Json, h: seq<Message>)
    decreases |h|
  {
    if h == [] then true
    else if h[0].role == Tool then false
    else if !IsBatch(h[0]) then Protocol(j, h[1..])
    else
      && CompleteBatch(j, h[0].toolCalls, Block(h))
      && ResultIds(Block(h)) <= CallIds(h[0].toolCalls)
      && Protocol(j, Rest(h))
  }

  predicate StartsWithUser(h: seq<Message>) {
    h != [] ==> h[0].role == User
  }

  /** No assistant turn calls the tool and no tool message carries its name. */
  predicate Without(h: seq<Message>, tool: string) {
    forall i :: 0 <= i < |h| ==> MessageWithout(h[i], tool)
  }

  predicate MessageWithout(m: Message, tool: string) {
    && (m.role == Assistant ==> forall k :: 0 <= k < |m.toolCalls| ==> m.toolCalls[k].name != tool)
    && (m.role == Tool ==> m.name != tool)
  }

  /** The tool message at k answers the assistant turn at i, with only results between. */
  predicate Answers(h: seq<Message>, i: nat, k: nat) {
    && i < k < |h|
    && h[i].role == Assistant && h[k].toolCallId in CallIds(h[i].toolCalls)
    && forall l :: i < l <= k ==> h[l].role == Tool
  }

  // ----- Sanitising -----

  lemma {:induction false} AllowedProperties(block: seq<Message>, ids: set<string>)
    requires AllTools(block)
    ensures AllTools(AllowedResults(block, ids))
    ensures ResultIds(AllowedResults(block, ids)) == ResultIds(block) * ids
    ensures ResultIds(block) <= ids ==> AllowedResults(block, ids) == block
  {
    if block != [] {
      AllowedProperties(block[1..], ids);
      var rest := AllowedResults(block[1..], ids);
      assert ([block[0]] + rest)[1..] == rest && [] + rest == rest;
    }
  }

  lemma {:induction false} ToolRunOf(block: seq<Message>, rest: seq<Message>)
    requires AllTools(block) && !StartsWithTool(rest)
    ensures ToolRun(block + rest) == |block|
  {
    if block == [] {
      assert block + rest == rest;
    } else {
      assert (block + rest)[1..] == block[1..] + rest;
      ToolRunOf(block[1..], rest);
    }
  }

  /** A batch in front of a transcript that starts with no tool message is read back whole. */
  lemma {:induction false} BatchInFront(m: Message, block: seq<Message>, rest: seq<Message>)
    requires AllTools(block) && !StartsWithTool(rest)
    ensures Block([m] + block + rest) == block && Rest([m] + block + rest) == rest
  {
    var h := [m] + block + rest;
    assert h[1..] == block + rest;
    ToolRunOf(block, rest);
    assert h[1..1 + |block|] == block && h[1 + |block|..] == rest;
  }

  lemma {:induction false} SanitizeFromIsProtocol(j: Json, h: seq<Message>)
    ensures Protocol(j, SanitizeFrom(j, h)) && !StartsWithTool(SanitizeFrom(j, h))
    decreases |h|
  {
    if h != [] {
      var m := h[0];
      if !IsBatch(m) {
        SanitizeFromIsProtocol(j, h[1..]);
        assert ([m] + SanitizeFrom(j, h[1..]))[1..] == SanitizeFrom(j, h[1..]);
      } else {
        SanitizeFromIsProtocol(j, Rest(h));
        if CompleteBatch(j, m.toolCalls, Block(h)) {
          KeptBatchIsProtocol(j, m, Block(h), SanitizeFrom(j, Rest(h)));
        } else {
          assert [] + SanitizeFrom(j, Rest(h)) == SanitizeFrom(j, Rest(h));
        }
      }
    }
  }

  lemma {:induction false} KeptBatchIsProtocol(j: Json, m: Message, block: seq<Message>, rest: seq<Message>)
    requires IsBatch(m) && AllTools(block) && CompleteBatch(j, m.toolCalls, block)
    requires Protocol(j, rest) && !StartsWithTool(rest)
    ensures Protocol(j, [m] + AllowedResults(block, CallIds(m.toolCalls)) + rest)
  {
    var allowed := AllowedResults(block, CallIds(m.toolCalls));
    AllowedProperties(block, CallIds(m.toolCalls));
    forall i | 0 <= i < |m.toolCalls| ensures m.toolCalls[i].id in ResultIds(allowed) {
      CallIdListed(m.toolCalls, i);
    }
    BatchInFront(m, allowed, rest);
  }

  lemma {:induction false} CallIdListed(calls: seq<Call>, i: nat)
    requires i < |calls|
    ensures calls[i].id in CallIds(calls)
  {
    if i > 0 {
      CallIdListed(calls[1..], i - 1);
    }
  }

  lemma {:induction false} ResultIdListed(block: seq<Message>, k: nat)
    requires k < |block|
    ensures block[k].toolCallId in ResultIds(block)
  {
    if k > 0 {
      ResultIdListed(block[1..], k - 1);
    }
  }

  lemma {:induction false} ResultIndex(block: seq<Message>, id: string) returns (k: nat)
    requires id in ResultIds(block)
    ensures k < |block| && block[k].toolCallId == id
  {
    if block[0].toolCallId == id {
      k := 0;
    } else {
      k := ResultIndex(block[1..], id);
      k := k + 1;
    }
  }

  lemma {:induction false} ProtocolIsFixed(j: Json, h: seq<Message>)
    requires Protocol(j, h)
    ensures SanitizeFrom(j, h) == h
    decreases |h|
  {
    if h != [] {
      if !IsBatch(h[0]) {
        ProtocolIsFixed(j, h[1..]);
      } else {
        AllowedProperties(Block(h), CallIds(h[0].toolCalls));
        ProtocolIsFixed(j, Rest(h));
      }
    }
  }

  lemma {:induction false} SanitizeFromKeepsHead(j: Json, h: seq<Message>)
    requires h != [] && h[0].role == User
    ensures SanitizeFrom(j, h) != [] && SanitizeFrom(j, h)[0] == h[0]
  {
  }

  /** Whatever was stored, sanitising yields a protocol-correct transcript that is empty
      or starts with a user turn. */
  lemma {:induction false} SanitizeIsProtocol(j: Json, h: seq<Message>)
    ensures Protocol(j, Sanitize(j, h)) && StartsWithUser(Sanitize(j, h))
  {
    SanitizeFromIsProtocol(j, FromFirstUser(h));
    if FromFirstUser(h) != [] {
      SanitizeFromKeepsHead(j, FromFirstUser(h));
    }
  }

  /** Sanitising changes nothing exactly when there is nothing to repair, so it is
      idempotent. */
  lemma {:induction false} SanitizeIsIdentityIff(j: Json, h: seq<Message>)
    ensures Sanitize(j, h) == h <==> Protocol(j, h) && StartsWithUser(h)
    ensures Sanitize(j, Sanitize(j, h)) == Sanitize(j, h)
  {
    SanitizeIsProtocol(j, h);
    ProtocolIsFixed(j, Sanitize(j, h));
    if Protocol(j, h) && StartsWithUser(h) {
      ProtocolIsFixed(j, h);
    }
  }

  /** The tool message at k answers some assistant turn. */
  ghost predicate HasCaller(h: seq<Message>, k: nat) {
    exists i: nat :: Answers(h, i, k)
  }

  /** The call `id` of the assistant turn at i is answered in its block. */
  ghost predicate Answered(h: seq<Message>, i: nat, id: string) {
    exists k: nat :: Answers(h, i, k) && h[k].toolCallId == id
  }

  lemma {:induction false} AnswersShift(h: seq<Message>, d: nat, i: nat, k: nat)
    requires d <= |h| && Answers(h[d..], i, k)
    ensures Answers(h, i + d, k + d)
  {
    forall l | i + d < l <= k + d ensures h[l].role == Tool { assert h[d..][l - d].role == Tool; }
  }

  lemma {:induction false} ShiftBack(h: seq<Message>, d: nat, k: nat)
    requires d <= k < |h|
    ensures HasCaller(h[d..], k - d) ==> HasCaller(h, k)
    ensures forall id :: Answered(h[d..], k - d, id) ==> Answered(h, k, id)
  {
    if HasCaller(h[d..], k - d) {
      var i: nat :| Answers(h[d..], i, k - d);
      AnswersShift(h, d, i, k - d);
    }
    forall id | Answered(h[d..], k - d, id) ensures Answered(h, k, id) {
      var l: nat :| Answers(h[d..], k - d, l) && h[d..][l].toolCallId == id;
      AnswersShift(h, d, k - d, l);
    }
  }

  /** In a protocol-correct transcript every tool message sits in the block right after
      an assistant turn that called its id, and every call has valid arguments and a
      nonempty id that is answered in that block. */
  lemma {:induction false} ProtocolMeaning(j: Json, h: seq<Message>, k: nat)
    requires Protocol(j, h) && k < |h|
    ensures h[k].role == Tool ==> HasCaller(h, k)
    ensures h[k].role == Assistant ==> forall c :: 0 <= c < |h[k].toolCalls| ==>
              j.isObject(h[k].toolCalls[c].arguments) && h[k].toolCalls[c].id != "" && Answered(h, k, h[k].toolCalls[c].id)
    decreases |h|
  {
    hide CallIds, ResultIds, ToolRun;
    if !IsBatch(h[0]) {
      if k > 0 {
        ProtocolMeaning(j, h[1..], k - 1);
        ShiftBack(h, 1, k);
      }
    } else {
      var block := Block(h);
      var d := 1 + |block|;
      assert forall l :: 1 <= l < d ==> h[l] == block[l - 1];
      if k >= d {
        assert Rest(h) == h[d..];
        ProtocolMeaning(j, h[d..], k - d);
        ShiftBack(h, d, k);
      } else if k > 0 {
        ResultIdListed(block, k - 1);
        assert Answers(h, 0, k);
      } else {
        forall c | 0 <= c < |h[0].toolCalls| ensures Answered(h, 0, h[0].toolCalls[c].id) {
          var l := ResultIndex(block, h[0].toolCalls[c].id);
          CallIdListed(h[0].toolCalls, c);
          assert Answers(h, 0, l + 1);
        }
      }
    }
  }

  // ----- Stripping -----

  lemma {:induction false} OrdinaryCallsOf(calls: seq<Call>, tool: string)
    ensures forall k :: 0 <= k < |OrdinaryCalls(calls, tool)| ==> OrdinaryCalls(calls, tool)[k].name != tool && OrdinaryCalls(calls, tool)[k] in calls
    ensures (forall k :: 0 <= k < |calls| ==> calls[k].name != tool) ==> OrdinaryCalls(calls, tool) == calls
  {
    if calls != [] {
      OrdinaryCallsOf(calls[1..], tool);
    }
  }

  /** No call and no result of a stripped tool remains, and stripping one tool keeps
      another one out. */
  lemma {:induction false} StripFromRemoves(h: seq<Message>, tool: string, ids: set<string>, other: string)
    requires tool != ""
    ensures Without(StripFrom(h, tool, ids), tool)
    ensures Without(h, other) ==> Without(StripFrom(h, tool, ids), other)
  {
    if h != [] {
      var m := h[0];
      var ids' := if IsBatch(m) then NamedIds(m.toolCalls, tool) else if m.role == Tool then ids else {};
      StripFromRemoves(h[1..], tool, ids', other);
      OrdinaryCallsOf(m.toolCalls, tool);
      assert Without(h, other) ==> MessageWithout(m, other) && Without(h[1..], other);
      var kept := StripFrom(h, tool, ids)[..|StripFrom(h, tool, ids)| - |StripFrom(h[1..], tool, ids')|];
      assert StripFrom(h, tool, ids) == kept + StripFrom(h[1..], tool, ids');
      assert Without(kept, tool) && (Without(h, other) ==> Without(kept, other));
    }
  }

  lemma {:induction false} StripFromFixed(h: seq<Message>, tool: string)
    requires tool != "" && Without(h, tool)
    ensures StripFrom(h, tool, {}) == h
  {
    if h != [] {
      assert MessageWithout(h[0], tool);
      OrdinaryCallsOf(h[0].toolCalls, tool);
      assert Without(h[1..], tool);
      assert h[0].role == Assistant ==> NamedIds(h[0].toolCalls, tool) == {};
      StripFromFixed(h[1..], tool);
    }
  }

  lemma {:induction false} AllowedAreMembers(block: seq<Message>, ids: set<string>, tool: string)
    requires Without(block, tool)
    ensures Without(AllowedResults(block, ids), tool)
  {
    if block != [] {
      assert MessageWithout(block[0], tool) && Without(block[1..], tool);
      AllowedAreMembers(block[1..], ids, tool);
    }
  }

  lemma {:induction false} SanitizeFromKeepsWithout(j: Json, h: seq<Message>, tool: string)
    requires Without(h, tool)
    ensures Without(SanitizeFrom(j, h), tool)
    decreases |h|
  {
    if h != [] {
      assert MessageWithout(h[0], tool);
      if !IsBatch(h[0]) {
        assert Without(h[1..], tool);
        SanitizeFromKeepsWithout(j, h[1..], tool);
      } else {
        var n := 1 + |Block(h)|;
        assert Block(h) == h[1..n] && Rest(h) == h[n..];
        AllowedAreMembers(Block(h), CallIds(h[0].toolCalls), tool);
        SanitizeFromKeepsWithout(j, Rest(h), tool);
      }
    }
  }

  lemma {:induction false} FromFirstUserKeepsWithout(h: seq<Message>, tool: string)
    requires Without(h, tool)
    ensures Without(FromFirstUser(h), tool)
  {
    if h != [] && h[0].role != User {
      assert Without(h[1..], tool);
      FromFirstUserKeepsWithout(h[1..], tool);
    }
  }

  // ----- Compaction -----

  lemma {:induction false} CompactCalls(j: Json, m: Message, kept: set<string>, from: nat)
    requires from <= |m.toolCalls|
    ensures CallIds(CompactMessage(j, m, kept).toolCalls[from..]) == CallIds(m.toolCalls[from..])
    decreases |m.toolCalls| - from
  {
    if from < |m.toolCalls| {
      CompactCalls(j, m, kept, from + 1);
      assert m.toolCalls[from..][1..] == m.toolCalls[from + 1..];
      assert CompactMessage(j, m, kept).toolCalls[from..][1..] == CompactMessage(j, m, kept).toolCalls[from + 1..];
    }
  }

  lemma {:induction false} CompactBlock(j: Json, block: seq<Message>, kept: set<string>)
    ensures ResultIds(CompactWith(j, block, kept)) == ResultIds(block)
    ensures AllTools(block) ==> AllTools(CompactWith(j, block, kept))
  {
    if block != [] {
      CompactBlock(j, block[1..], kept);
      assert CompactWith(j, block, kept)[1..] == CompactWith(j, block[1..], kept);
    }
  }

  /** Compaction rewrites payloads only: the result is still protocol-correct. */
  lemma {:induction false} CompactKeepsProtocol(j: Json, h: seq<Message>, kept: set<string>)
    requires j.isObject(COMPACTED_REDUCE_ARGS) && Protocol(j, h)
    ensures Protocol(j, CompactWith(j, h, kept))
    decreases |h|
  {
    if h != [] {
      var c := CompactWith(j, h, kept);
      if !IsBatch(h[0]) {
        CompactKeepsProtocol(j, h[1..], kept);
        assert c[1..] == CompactWith(j, h[1..], kept);
      } else {
        CompactKeepsProtocol(j, Rest(h), kept);
        CompactCut(j, h, kept);
        CompactBatch(j, h[0], Block(h), kept);
      }
    }
  }

  /** Compaction leaves batches and their blocks where they are. */
  lemma {:induction false} CompactCut(j: Json, h: seq<Message>, kept: set<string>)
    requires h != []
    ensures var c := CompactWith(j, h, kept);
      c[0] == CompactMessage(j, h[0], kept) && Block(c) == CompactWith(j, Block(h), kept) && Rest(c) == CompactWith(j, Rest(h), kept)
  {
    hide CompactMessage, CompactWith, Block, Rest, AllTools, StartsWithTool;
    var block, rest := Block(h), Rest(h);
    CompactAppend(j, [h[0]], block, kept);
    CompactAppend(j, [h[0]] + block, rest, kept);
    CompactOne(j, h[0], kept);
    CompactBlock(j, block, kept);
    CompactStart(j, rest, kept);
    BatchInFront(CompactMessage(j, h[0], kept), CompactWith(j, block, kept), CompactWith(j, rest, kept));
  }

  lemma {:induction false} CompactAppend(j: Json, a: seq<Message>, b: seq<Message>, kept: set<string>)
    ensures CompactWith(j, a + b, kept) == CompactWith(j, a, kept) + CompactWith(j, b, kept)
  {
  }

  lemma {:induction false} CompactOne(j: Json, m: Message, kept: set<string>)
    ensures CompactWith(j, [m], kept) == [CompactMessage(j, m, kept)]
  {
  }

  lemma {:induction false} CompactStart(j: Json, h: seq<Message>, kept: set<string>)
    ensures StartsWithTool(CompactWith(j, h, kept)) == StartsWithTool(h)
  {
  }

  lemma {:induction false} CompactBatch(j: Json, m: Message, block: seq<Message>, kept: set<string>)
    requires j.isObject(COMPACTED_REDUCE_ARGS) && IsBatch(m)
    requires CompleteBatch(j, m.toolCalls, block) && ResultIds(block) <= CallIds(m.toolCalls)
    ensures var m', block' := CompactMessage(j, m, kept), CompactWith(j, block, kept);
      IsBatch(m') && CompleteBatch(j, m'.toolCalls, block') && ResultIds(block') <= CallIds(m'.toolCalls)
  {
    CompactBlock(j, block, kept);
    CompactCalls(j, m, kept, 0);
    var m' := CompactMessage(j, m, kept);
    assert m'.toolCalls[0..] == m'.toolCalls && m.toolCalls[0..] == m.toolCalls;
  }

  lemma {:induction false} CompactKeepsWithout(j: Json, h: seq<Message>, kept: set<string>, tool: string)
    requires Without(h, tool)
    ensures Without(CompactWith(j, h, kept), tool)
  {
    forall i | 0 <= i < |h| ensures MessageWithout(CompactMessage(j, h[i], kept), tool) {
      assert MessageWithout(h[i], tool);
    }
  }

  // ----- The pipeline -----

  /** For any stored history, what a live workspace planner is shown is protocol-correct,
      starts with a user turn, and holds no terminal and no preparation call or result. */
  lemma {:induction false} PlannerHistoryIsProtocol(j: Json, h: seq<Message>, terminalTool: string)
    requires terminalTool != "" && j.isObject(COMPACTED_REDUCE_ARGS)
    ensures var out := PlannerHistory(j, h, terminalTool, true);
      Protocol(j, out) && StartsWithUser(out) && Without(out, terminalTool) && Without(out, PREPARE_SUMMARY_DRAFT)
  {
    var h0 := StripInvalid(j, h);
    var h1 := StripTerminal(h0, terminalTool);
    var h2 := StripTerminal(h1, PREPARE_SUMMARY_DRAFT);
    StripFromRemoves(h0, terminalTool, {}, terminalTool);
    StripFromRemoves(h1, PREPARE_SUMMARY_DRAFT, {}, terminalTool);
    PipelineTail(j, h2, terminalTool);
    PipelineTail(j, h2, PREPARE_SUMMARY_DRAFT);
  }

  lemma {:induction false} PipelineTail(j: Json, h: seq<Message>, tool: string)
    requires Without(h, tool) && j.isObject(COMPACTED_REDUCE_ARGS)
    ensures var out := Compact(j, Sanitize(j, h)); Protocol(j, out) && StartsWithUser(out) && Without(out, tool)
  {
    var s := Sanitize(j, h);
    SanitizeIsProtocol(j, h);
    FromFirstUserKeepsWithout(h, tool);
    SanitizeFromKeepsWithout(j, FromFirstUser(h), tool);
    CompactKeepsProtocol(j, s, KeptArgIds(j, s));
    CompactKeepsWithout(j, s, KeptArgIds(j, s), tool);
  }

  /** A terminal policy is enough for a protocol-correct transcript. */
  lemma {:induction false} PlannerHistoryProtocol(j: Json, h: seq<Message>, terminalTool: string, hasPrepare: bool)
    requires terminalTool != "" && j.isObject(COMPACTED_REDUCE_ARGS)
    ensures Protocol(j, PlannerHistory(j, h, terminalTool, hasPrepare)) && StartsWithUser(PlannerHistory(j, h, terminalTool, hasPrepare))
  {
    var h1 := StripTerminal(StripInvalid(j, h), terminalTool);
    var s := Sanitize(j, if hasPrepare then StripTerminal(h1, PREPARE_SUMMARY_DRAFT) else h1);
    SanitizeIsProtocol(j, if hasPrepare then StripTerminal(h1, PREPARE_SUMMARY_DRAFT) else h1);
    CompactKeepsProtocol(j, s, KeptArgIds(j, s));
  }

  /** Without a terminal policy the sanitising pass is skipped, and an orphaned result
      reaches the planner. */
  lemma {:induction false} OrphanSurvivesWithoutTerminal(j: Json, orphan: Message, hasPrepare: bool)
    requires orphan.role == Tool && orphan.toolCalls == [] && orphan.name != PREPARE_SUMMARY_DRAFT
    ensures !Protocol(j, PlannerHistory(j, [orphan], "", hasPrepare))
  {
    assert StripInvalid(j, [orphan]) == [orphan] + StripInvalid(j, []);
    assert StripFrom([orphan], PREPARE_SUMMARY_DRAFT, {}) == [orphan] + StripFrom([], PREPARE_SUMMARY_DRAFT, {});
  }

  /** So a protocol-correct transcript is guaranteed for every stored history exactly when
      the policy names a terminal tool. */
  lemma {:induction false} ProtocolGuaranteedIff(j: Json, terminalTool: string, hasPrepare: bool)
    requires j.isObject(COMPACTED_REDUCE_ARGS)
    ensures (forall h :: Protocol(j, PlannerHistory(j, h, terminalTool, hasPrepare))) <==> terminalTool != ""
  {
    if terminalTool != "" {
      forall h ensures Protocol(j, PlannerHistory(j, h, terminalTool, hasPrepare)) {
        PlannerHistoryProtocol(j, h, terminalTool, hasPrepare);
      }
    } else {
      OrphanSurvivesWithoutTerminal(j, Message(Tool, "", [], "", ""), hasPrepare);
    }
  }

  predicate AllValid(j: Json, h: seq<Message>) {
    forall i :: 0 <= i < |h| ==> ValidArguments(j, h[i].toolCalls)
  }

  lemma {:induction false} StripInvalidFixed(j: Json, h: seq<Message>)
    requires AllValid(j, h)
    ensures StripInvalid(j, h) == h
    decreases |h|
  {
    if h != [] {
      assert ValidArguments(j, h[0].toolCalls) && AllValid(j, h[1..]);
      StripInvalidFixed(j, h[1..]);
    }
  }

  /** A clean transcript passes through every stripping and sanitising pass unchanged. */
  lemma {:induction false} CleanPassesUnchanged(j: Json, h: seq<Message>, terminalTool: string)
    requires terminalTool != ""
    requires Protocol(j, h) && StartsWithUser(h) && AllValid(j, h)
    requires Without(h, terminalTool) && Without(h, PREPARE_SUMMARY_DRAFT)
    ensures StripInvalid(j, h) == h
    ensures StripTerminal(h, terminalTool) == h && StripTerminal(h, PREPARE_SUMMARY_DRAFT) == h
    ensures Sanitize(j, h) == h
    ensures PlannerHistory(j, h, terminalTool, true) == Compact(j, h)
  {
    StripInvalidFixed(j, h);
    StripFromFixed(h, terminalTool);
    StripFromFixed(h, PREPARE_SUMMARY_DRAFT);
    SanitizeIsIdentityIff(j, h);
  }

  lemma {:induction false} ProtocolAppend(j: Json, a: seq<Message>, b: seq<Message>)
    requires Protocol(j, a) && Protocol(j, b)
    ensures Protocol(j, a + b)
    decreases |a|
  {
    if a == [] {
      assert a + b == b;
    } else if !IsBatch(a[0]) {
      ProtocolAppend(j, a[1..], b);
      assert (a + b)[1..] == a[1..] + b;
    } else {
      ProtocolAppend(j, Rest(a), b);
      assert a + b == [a[0]] + Block(a) + (Rest(a) + b);
      BatchInFront(a[0], Block(a), Rest(a) + b);
    }
  }

  // ----- The loops of the source -----

  /** The index after the tool messages that follow position i. */
  method SkipResults(history: seq<Message>, i: nat) returns (k: nat)
    requires i < |history|
    ensures k == i + 1 + |Block(history[i..])| && i < k <= |history|
    ensures Block(history[i..]) == history[i + 1..k] && Rest(history[i..]) == history[k..]
  {
    k := i + 1;
    while k < |history| && history[k].role == Tool
      invariant i < k <= |history|
      invariant ToolRun(history[i + 1..]) == k - i - 1 + ToolRun(history[k..])
    {
      assert history[k..][1..] == history[k + 1..];
      k := k + 1;
    }
    BlockEnds(history, i, k);
  }

  lemma {:induction false} BlockEnds(history: seq<Message>, i: nat, k: nat)
    requires i < k <= |history| && ToolRun(history[i + 1..]) == k - i - 1
    ensures |Block(history[i..])| == k - i - 1
    ensures Block(history[i..]) == history[i + 1..k] && Rest(history[i..]) == history[k..]
  {
    assert history[i..][1..] == history[i + 1..];
  }

  /** `out` is the result of the pass on history[..i]. */
  ghost predicate StrippedTo(j: Json, history: seq<Message>, out: seq<Message>, i: nat)
    requires i <= |history|
  {
    out + StripInvalid(j, history[i..]) == StripInvalid(j, history)
  }

  lemma {:induction false} StripInvalidValid(j: Json, history: seq<Message>, out: seq<Message>, i: nat)
    requires i < |history| && StrippedTo(j, history, out, i) && ValidArguments(j, history[i].toolCalls)
    ensures StrippedTo(j, history, out + [history[i]], i + 1)
  {
    assert history[i..][1..] == history[i + 1..];
    ConcatAssoc(out, [history[i]], StripInvalid(j, history[i + 1..]));
  }

  lemma {:induction false} StripInvalidBatch(j: Json, history: seq<Message>, out: seq<Message>, i: nat, k: nat)
    requires i < |history| && StrippedTo(j, history, out, i) && !ValidArguments(j, history[i].toolCalls)
    requires k <= |history| && Rest(history[i..]) == history[k..]
    ensures StrippedTo(j, history, out + if Blank(history[i].content) then [] else [history[i].(toolCalls := [])], k)
  {
    ConcatAssoc(out, if Blank(history[i].content) then [] else [history[i].(toolCalls := [])], StripInvalid(j, history[k..]));
  }

  method StripInvalidToolHistory(j: Json, history: seq<Message>) returns (out: seq<Message>)
    ensures out == StripInvalid(j, history)
  {
    out := [];
    var i := 0;
    assert history[0..] == history;
    while i < |history|
      invariant i <= |history| && StrippedTo(j, history, out, i)
    {
      var message := history[i];
      if !ValidArguments(j, message.toolCalls) {
        var k := SkipResults(history, i);
        StripInvalidBatch(j, history, out, i, k);
        if !Blank(message.content) {
          out := out + [message.(toolCalls := [])];
        } else {
          assert out + [] == out;
        }
        i := k;
      } else {
        StripInvalidValid(j, history, out, i);
        out := out + [message];
        i := i + 1;
      }
    }
  }

  ghost predicate StrippedFrom(history: seq<Message>, tool: string, out: seq<Message>, i: nat, ids: set<string>)
    requires i <= |history|
  {
    out + StripFrom(history[i..], tool, ids) == StripFrom(history, tool, {})
  }

  lemma {:induction false} StripFromStep(history: seq<Message>, tool: string, out: seq<Message>, i: nat, ids: set<string>, kept: seq<Message>, ids': set<string>)
    requires i < |history| && StrippedFrom(history, tool, out, i, ids)
    requires StripFrom(history[i..], tool, ids) == kept + StripFrom(history[i..][1..], tool, ids')
    ensures StrippedFrom(history, tool, out + kept, i + 1, ids')
  {
    assert history[i..][1..] == history[i + 1..];
    ConcatAssoc(out, kept, StripFrom(history[i + 1..], tool, ids'));
  }

  method StripTerminalToolHistory(history: seq<Message>, terminalTool: string) returns (out: seq<Message>)
    ensures out == StripTerminal(history, terminalTool)
  {
    if terminalTool == "" || history == [] {
      return history;
    }
    out := [];
    var terminalIds: set<string> := {};
    assert history[0..] == history;
    for i := 0 to |history|
      invariant StrippedFrom(history, terminalTool, out, i, terminalIds)
    {
      var kept, ids := StripOne(history[i], terminalTool, terminalIds);
      StripFromStep(history, terminalTool, out, i, terminalIds, kept, ids);
      out, terminalIds := out + kept, ids;
    }
  }

  /** One turn of the stripping loop: what it keeps and the ids it remembers. */
  method StripOne(message: Message, terminalTool: string, terminalIds: set<string>) returns (kept: seq<Message>, ids: set<string>)
    ensures forall rest :: StripFrom([message] + rest, terminalTool, terminalIds) == kept + StripFrom(rest, terminalTool, ids)
  {
    forall rest: seq<Message> ensures ([message] + rest)[1..] == rest {}
    if IsBatch(message) {
      ids := NamedIds(message.toolCalls, terminalTool);
      var filtered := WithoutCalls(message, terminalTool);
      kept := match filtered case Some(m) => [m] case None => [];
      return;
    }
    if message.role == Tool {
      return if message.name == terminalTool || message.toolCallId in terminalIds then [] else [message], terminalIds;
    }
    return [message], {};
  }

  ghost predicate SanitizedTo(j: Json, history: seq<Message>, out: seq<Message>, i: nat)
    requires i <= |history|
  {
    out + SanitizeFrom(j, history[i..]) == Sanitize(j, history)
  }

  lemma {:induction false} SanitizedStep(j: Json, history: seq<Message>, out: seq<Message>, i: nat, kept: seq<Message>, k: nat)
    requires i < k <= |history| && SanitizedTo(j, history, out, i)
    requires SanitizeFrom(j, history[i..]) == kept + SanitizeFrom(j, history[k..])
    ensures SanitizedTo(j, history, out + kept, k)
  {
    ConcatAssoc(out, kept, SanitizeFrom(j, history[k..]));
  }

  /** One turn of the sanitising loop: what it keeps and where it goes on. */
  method SanitizeOne(j: Json, history: seq<Message>, i: nat) returns (kept: seq<Message>, k: nat)
    requires i < |history|
    ensures i < k <= |history|
    ensures SanitizeFrom(j, history[i..]) == kept + SanitizeFrom(j, history[k..])
  {
    var message := history[i];
    assert history[i..][0] == message && history[i..][1..] == history[i + 1..];
    if message.role == Tool {
      assert [] + SanitizeFrom(j, history[i + 1..]) == SanitizeFrom(j, history[i + 1..]);
      return [], i + 1;
    }
    if !IsBatch(message) {
      return [message], i + 1;
    }
    k := SkipResults(history, i);
    var block := history[i + 1..k];
    if CompleteBatch(j, message.toolCalls, block) {
      kept := [message] + AllowedResults(block, CallIds(message.toolCalls));
    } else {
      kept := [];
    }
  }

  method SanitizeToolProtocolHistory(j: Json, history: seq<Message>) returns (out: seq<Message>)
    ensures out == Sanitize(j, history)
  {
    var start := FirstUser(history);
    out := [];
    var i := start;
    assert [] + SanitizeFrom(j, history[start..]) == SanitizeFrom(j, history[start..]);
    while i < |history|
      invariant i <= |history| && SanitizedTo(j, history, out, i)
    {
      var kept, k := SanitizeOne(j, history, i);
      SanitizedStep(j, history, out, i, kept, k);
      out, i := out + kept, k;
    }
  }

  method FirstUser(history: seq<Message>) returns (start: nat)
    ensures start <= |history| && FromFirstUser(history) == history[start..]
  {
    start := 0;
    assert history[0..] == history;
    while start < |history| && history[start].role != User
      invariant start <= |history| && FromFirstUser(history[start..]) == FromFirstUser(history)
    {
      assert history[start..][1..] == history[start + 1..];
      start := start + 1;
    }
  }

  // ----- The sliding window -----

  function UserTurns(h: seq<Message>): nat {
    if h == [] then 0 else (if h[0].role == User then 1 else 0) + UserTurns(h[1..])
  }

  /** Keep the last n rounds, a round being a user turn and all that follows it. */
  method TruncateHistory(history: seq<Message>, n: int) returns (kept: seq<Message>)
    ensures |kept| <= |history| && kept == history[|history| - |kept|..]
    ensures n <= 0 || UserTurns(history) < n ==> kept == history
    ensures 0 < n <= UserTurns(history) ==> UserTurns(kept) == n && kept != [] && kept[0].role == User
  {
    assert history[0..] == history;
    if n <= 0 || history == [] {
      return history;
    }
    var starts := 0;
    var i := |history|;
    while i > 0
      invariant 0 <= i <= |history|
      invariant starts == UserTurns(history[i..]) < n
    {
      i := i - 1;
      UserTurnsStep(history, i);
      if history[i].role == User {
        starts := starts + 1;
        if starts == n {
          UserTurnsSuffix(history, i);
          return history[i..];
        }
      }
    }
    return history;
  }

  lemma {:induction false} UserTurnsStep(h: seq<Message>, i: nat)
    requires i < |h|
    ensures UserTurns(h[i..]) == (if h[i].role == User then 1 else 0) + UserTurns(h[i + 1..])
  {
    assert h[i..][1..] == h[i + 1..];
  }

  lemma {:induction false} UserTurnsSuffix(h: seq<Message>, i: nat)
    requires i <= |h|
    ensures UserTurns(h[i..]) <= UserTurns(h)
  {
    if i > 0 {
      assert h[i..] == h[1..][i - 1..];
      UserTurnsSuffix(h[1..], i - 1);
    } else {
      assert h[0..] == h;
    }
  }

  /** Cutting at a user turn never separates a call from its results. */
  lemma {:induction false} WindowKeepsProtocol(j: Json, h: seq<Message>, i: nat)
    requires Protocol(j, h) && i < |h| && h[i].role == User
    ensures Protocol(j, h[i..])
    decreases |h|
  {
    if i > 0 {
      if !IsBatch(h[0]) {
        WindowKeepsProtocol(j, h[1..], i - 1);
        assert h[1..][i - 1..] == h[i..];
      } else {
        var d := 1 + |Block(h)|;
        assert forall l :: 1 <= l < d ==> h[l] == Block(h)[l - 1];
        assert Rest(h) == h[d..];
        WindowKeepsProtocol(j, h[d..], i - d);
        assert h[d..][i - d..] == h[i..];
      }
    } else {
      assert h[0..] == h;
    }
  }
}
