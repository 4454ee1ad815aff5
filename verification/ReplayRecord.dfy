/** What one tool round adds to the planner transcript and to the durable record
    (runner.go, lines 440-487), and why the record replays unchanged. */
module ReplayRecord {
  import opened GoText
  import opened Transcript

  /** The registered tools that matter here. */
  datatype Registry = Registry(terminals: set<string>, hasPrepare: bool)

  function ToolMessage(c: Call, result: string): Message {
    Message(Tool, result, [], c.id, c.name)
  }

  function ToolMessages(calls: seq<Call>, results: seq<string>): seq<Message>
    requires |results| == |calls|
  {
    if calls == [] then [] else [ToolMessage(calls[0], results[0])] + ToolMessages(calls[1..], results[1..])
  }

  /** The results that are stored: neither of terminal calls nor of draft preparation. */
  function DurableResults(reg: Registry, calls: seq<Call>, results: seq<string>): seq<Message>
    requires |results| == |calls|
  {
    if calls == [] then []
    else (if calls[0].name !in reg.terminals && calls[0].name != PREPARE_SUMMARY_DRAFT then [ToolMessage(calls[0], results[0])] else [])
         + DurableResults(reg, calls[1..], results[1..])
  }

  /** The assistant turn that is stored, if any of its calls is ordinary. */
  function DurableAssistant(m: Message, terminalTool: string): Option<Message> {
    match WithoutCalls(m, terminalTool)
    case None => None
    case Some(once) => WithoutCalls(once, PREPARE_SUMMARY_DRAFT)
  }

  function DurableRound(reg: Registry, terminalTool: string, m: Message, results: seq<string>): seq<Message>
    requires |results| == |m.toolCalls|
  {
    (match DurableAssistant(m, terminalTool) case Some(kept) => [kept] case None => []) + DurableResults(reg, m.toolCalls, results)
  }

  /** A message a round may store: its assistant turn without control calls, or the result
      of one of its calls that is neither terminal nor draft preparation. */
  predicate InRound(reg: Registry, terminalTool: string, m: Message, e: Message) {
    || DurableAssistant(m, terminalTool) == Some(e)
    || exists k :: 0 <= k < |m.toolCalls| && ResultOf(reg, m.toolCalls[k], e)
  }

  predicate ResultOf(reg: Registry, c: Call, e: Message) {
    c.name !in reg.terminals && c.name != PREPARE_SUMMARY_DRAFT && e == ToolMessage(c, e.content)
  }

  lemma {:induction false} ResultsOfCalls(reg: Registry, calls: seq<Call>, results: seq<string>, e: Message)
    requires |results| == |calls| && e in DurableResults(reg, calls, results)
    ensures exists k :: 0 <= k < |calls| && ResultOf(reg, calls[k], e)
  {
    if e in DurableResults(reg, calls[1..], results[1..]) {
      ResultsOfCalls(reg, calls[1..], results[1..], e);
      var k :| 0 <= k < |calls| - 1 && ResultOf(reg, calls[1..][k], e);
      assert ResultOf(reg, calls[k + 1], e);
    } else {
      assert ResultOf(reg, calls[0], e);
    }
  }

  lemma {:induction false} RoundStoresItsOwn(reg: Registry, terminalTool: string, m: Message, results: seq<string>)
    requires |results| == |m.toolCalls|
    ensures forall e :: e in DurableRound(reg, terminalTool, m, results) ==> InRound(reg, terminalTool, m, e)
  {
    forall e | e in DurableResults(reg, m.toolCalls, results) ensures InRound(reg, terminalTool, m, e) {
      ResultsOfCalls(reg, m.toolCalls, results, e);
    }
  }

  /** The policy's terminal tool is the only terminal tool. */
  predicate OnlyTerminal(reg: Registry, terminalTool: string) {
    reg.terminals == if terminalTool == "" then {} else {terminalTool}
  }

  predicate IdsPresent(calls: seq<Call>) {
    forall i :: 0 <= i < |calls| ==> calls[i].id != ""
  }

  // ----- The planner's transcript -----

  lemma {:induction false} ToolMessagesAnswer(calls: seq<Call>, results: seq<string>)
    requires |results| == |calls|
    ensures AllTools(ToolMessages(calls, results)) && ResultIds(ToolMessages(calls, results)) == CallIds(calls)
  {
    if calls != [] {
      ToolMessagesAnswer(calls[1..], results[1..]);
      assert ToolMessages(calls, results)[1..] == ToolMessages(calls[1..], results[1..]);
    }
  }

  /** A call batch followed by its results is protocol-correct. */
  lemma {:induction false} BatchIsProtocol(j: Json, m: Message, block: seq<Message>)
    requires IsBatch(m) && AllTools(block) && ResultIds(block) == CallIds(m.toolCalls)
    requires ValidArguments(j, m.toolCalls) && IdsPresent(m.toolCalls)
    ensures Protocol(j, [m] + block)
  {
    forall i | 0 <= i < |m.toolCalls| ensures m.toolCalls[i].id in ResultIds(block) {
      CallIdListed(m.toolCalls, i);
    }
    BatchInFront(m, block, []);
    assert [m] + block + [] == [m] + block;
  }

  lemma {:induction false} RoundIsProtocol(j: Json, m: Message, results: seq<string>)
    requires IsBatch(m) && |results| == |m.toolCalls| && ValidArguments(j, m.toolCalls) && IdsPresent(m.toolCalls)
    ensures Protocol(j, [m] + ToolMessages(m.toolCalls, results))
  {
    ToolMessagesAnswer(m.toolCalls, results);
    BatchIsProtocol(j, m, ToolMessages(m.toolCalls, results));
  }

  // ----- The durable record -----

  predicate Ordinary(c: Call, terminalTool: string) {
    (terminalTool == "" || c.name != terminalTool) && c.name != PREPARE_SUMMARY_DRAFT
  }

  function OrdinaryOf(calls: seq<Call>, terminalTool: string): seq<Call> {
    if calls == [] then []
    else (if Ordinary(calls[0], terminalTool) then [calls[0]] else []) + OrdinaryOf(calls[1..], terminalTool)
  }

  lemma {:induction false} OrdinaryTwice(calls: seq<Call>, terminalTool: string)
    ensures OrdinaryCalls(if terminalTool == "" then calls else OrdinaryCalls(calls, terminalTool), PREPARE_SUMMARY_DRAFT)
         == OrdinaryOf(calls, terminalTool)
  {
    if calls != [] {
      OrdinaryTwice(calls[1..], terminalTool);
    }
  }

  lemma {:induction false} OrdinaryMembers(j: Json, calls: seq<Call>, terminalTool: string)
    requires ValidArguments(j, calls) && IdsPresent(calls)
    ensures var o := OrdinaryOf(calls, terminalTool);
      ValidArguments(j, o) && IdsPresent(o) && forall i :: 0 <= i < |o| ==> Ordinary(o[i], terminalTool)
  {
    if calls != [] {
      OrdinaryMembers(j, calls[1..], terminalTool);
    }
  }

  lemma {:induction false} StoredAssistant(m: Message, terminalTool: string)
    requires IsBatch(m)
    ensures var o := OrdinaryOf(m.toolCalls, terminalTool);
      match DurableAssistant(m, terminalTool)
      case None => o == []
      case Some(kept) => o != [] && IsBatch(kept) && kept.toolCalls == o
  {
    OrdinaryTwice(m.toolCalls, terminalTool);
  }

  lemma {:induction false} StoredResults(reg: Registry, terminalTool: string, calls: seq<Call>, results: seq<string>)
    requires |results| == |calls| && OnlyTerminal(reg, terminalTool)
    ensures var block := DurableResults(reg, calls, results);
      && AllTools(block) && ResultIds(block) == CallIds(OrdinaryOf(calls, terminalTool))
      && forall i :: 0 <= i < |block| ==> block[i].name != PREPARE_SUMMARY_DRAFT && (terminalTool != "" ==> block[i].name != terminalTool)
                                          && block[i].toolCalls == []
    ensures OrdinaryOf(calls, terminalTool) == [] ==> DurableResults(reg, calls, results) == []
  {
    if calls != [] {
      StoredResults(reg, terminalTool, calls[1..], results[1..]);
      var block := DurableResults(reg, calls, results);
      if Ordinary(calls[0], terminalTool) {
        assert block == [ToolMessage(calls[0], results[0])] + DurableResults(reg, calls[1..], results[1..]);
        assert block[1..] == DurableResults(reg, calls[1..], results[1..]);
        assert OrdinaryOf(calls, terminalTool)[1..] == OrdinaryOf(calls[1..], terminalTool);
      } else {
        assert block == DurableResults(reg, calls[1..], results[1..]);
        assert OrdinaryOf(calls, terminalTool) == OrdinaryOf(calls[1..], terminalTool);
      }
    }
  }

  /** Nothing in the record needs repair on the next turn. */
  ghost predicate Clean(j: Json, terminalTool: string, h: seq<Message>) {
    && Protocol(j, h) && AllValid(j, h)
    && (terminalTool != "" ==> Without(h, terminalTool)) && Without(h, PREPARE_SUMMARY_DRAFT)
  }

  lemma {:induction false} CleanAppend(j: Json, terminalTool: string, a: seq<Message>, b: seq<Message>)
    requires Clean(j, terminalTool, a) && Clean(j, terminalTool, b)
    ensures Clean(j, terminalTool, a + b)
  {
    ProtocolAppend(j, a, b);
  }

  lemma {:induction false} PlainIsClean(j: Json, terminalTool: string, m: Message)
    requires m.role != Tool && m.toolCalls == []
    ensures Clean(j, terminalTool, [m])
  {
    assert [m][1..] == [];
  }

  /** What a round stores is clean. */
  lemma {:induction false} RoundIsClean(j: Json, reg: Registry, terminalTool: string, m: Message, results: seq<string>)
    requires IsBatch(m) && |results| == |m.toolCalls| && ValidArguments(j, m.toolCalls) && IdsPresent(m.toolCalls)
    requires OnlyTerminal(reg, terminalTool)
    ensures Clean(j, terminalTool, DurableRound(reg, terminalTool, m, results))
  {
    var block := DurableResults(reg, m.toolCalls, results);
    StoredAssistant(m, terminalTool);
    StoredResults(reg, terminalTool, m.toolCalls, results);
    OrdinaryMembers(j, m.toolCalls, terminalTool);
    match DurableAssistant(m, terminalTool)
    case None =>
      assert DurableRound(reg, terminalTool, m, results) == [];
    case Some(kept) =>
      BatchIsProtocol(j, kept, block);
      StoredBatchIsClean(j, terminalTool, kept, block);
  }

  lemma {:induction false} StoredBatchIsClean(j: Json, terminalTool: string, kept: Message, block: seq<Message>)
    requires Protocol(j, [kept] + block) && kept.role == Assistant && AllTools(block)
    requires ValidArguments(j, kept.toolCalls)
    requires forall i :: 0 <= i < |kept.toolCalls| ==> Ordinary(kept.toolCalls[i], terminalTool)
    requires forall i :: 0 <= i < |block| ==> block[i].name != PREPARE_SUMMARY_DRAFT && (terminalTool != "" ==> block[i].name != terminalTool)
                                              && block[i].toolCalls == []
    ensures Clean(j, terminalTool, [kept] + block)
  {
    var h := [kept] + block;
    forall i | 0 <= i < |h|
      ensures ValidArguments(j, h[i].toolCalls) && MessageWithout(h[i], PREPARE_SUMMARY_DRAFT)
              && (terminalTool != "" ==> MessageWithout(h[i], terminalTool))
    {
      if i > 0 { assert h[i] == block[i - 1]; }
    }
  }

  /** Replay stability: a clean record that starts with its user turn passes through every
      stripping and sanitising pass of the next turn unchanged. */
  lemma {:induction false} RecordReplaysUnchanged(j: Json, terminalTool: string, h: seq<Message>)
    requires terminalTool != "" && Clean(j, terminalTool, h) && StartsWithUser(h)
    ensures StripInvalid(j, h) == h && StripTerminal(h, terminalTool) == h && StripTerminal(h, PREPARE_SUMMARY_DRAFT) == h
    ensures Sanitize(j, h) == h && PlannerHistory(j, h, terminalTool, true) == Compact(j, h)
  {
    CleanPassesUnchanged(j, h, terminalTool);
  }
}
