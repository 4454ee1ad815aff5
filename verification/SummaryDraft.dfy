/** Draft preparation and the citation guard of the final submission
    (agent/summary_draft.go and agent/tool_emit_summary_response.go). */
module SummaryDraft {
  import opened GoText
  import opened Markdown
  import opened CitationCluster
  import opened CitationRewrite
  import opened CitationString
  import CitationBoundary
  import ReferenceHazard
  import HandleStore
  import MapReduceProtocol

  const MAX_SUMMARY_DRAFT_REPAIRS := 2
  const MAX_DRAFT_BYTES := HandleStore.MAX_SUMMARY_HANDLE_TEXT

  /** The run's evidence: whether messages were fetched, and which indices they back. */
  datatype EvidenceWindow = EvidenceWindow(hasEvidence: bool, allowed: Evidence, references: Evidence)

  /** One answer of the text-only writer. */
  datatype WriterTurn = WriterTurn(failed: bool, toolCalls: bool, truncated: bool, content: string, tokens: nat)

  /** The writer: its n-th answer, whether the request is over before it, and the unique
      part of the next handle. */
  datatype Writer = Writer(turn: nat -> WriterTurn, over: nat -> bool, uuid: string)

  datatype Reason = Accepted | UnexpectedToolCall | Truncated | Empty | ProtocolText | TooLarge | InvalidCitations | ModelCall

  /** strings.Contains. */
  predicate Contains(s: string, p: string) {
    exists i :: 0 <= i <= |s| && HasPrefix(s[i..], p)
  }

  /** summaryDraftQualityFailure. */
  function QualityFailure(lower: CaseMap, ev: EvidenceWindow, toolCalls: bool, truncated: bool, content: string): Reason {
    if toolCalls then UnexpectedToolCall
    else if truncated then Truncated
    else if Blank(content) then Empty
    else if Contains(content, "```tool_code") || Contains(content, "<tool_call>") then ProtocolText
    else if ByteLen(content) > MAX_DRAFT_BYTES then TooLarge
    else if ev.hasEvidence && !ValidAdjacentOf(lower, content, ev.allowed, true) then InvalidCitations
    else Accepted
  }

  /** The evidence an expansion may use. */
  function Usable(ev: EvidenceWindow): Evidence {
    if ev.hasEvidence then ev.allowed else ev.references
  }

  function Canonicalized(lower: CaseMap, ev: EvidenceWindow, content: string): string {
    CanonicalizeAdjacentOf(lower, content, Usable(ev))
  }

  method CanonicalizeDraftCitations(lower: CaseMap, ev: EvidenceWindow, content: string) returns (out: string)
    ensures out == Canonicalized(lower, ev, content)
  {
    out := CitationBoundary.CanonicalizeAdjacent(lower, content, Usable(ev));
  }

  /** The guard of emit_summary_response on the content it is about to accept. */
  method EmitCitationGuard(lower: CaseMap, ev: EvidenceWindow, content: string) returns (accepted: bool)
    ensures accepted <==> GuardAccepts(lower, ev, content)
  {
    if !ev.hasEvidence {
      return true;
    }
    accepted := CitationBoundary.ValidAdjacent(lower, content, ev.allowed, true);
  }

  predicate GuardAccepts(lower: CaseMap, ev: EvidenceWindow, content: string) {
    ev.hasEvidence ==> ValidAdjacentOf(lower, content, ev.allowed, true)
  }

  /** Every citation of a text is backed by the evidence. */
  predicate Backed(lower: CaseMap, ev: EvidenceWindow, content: string) {
    ev.hasEvidence ==> ValidAdjacentOf(lower, content, ev.allowed, false)
  }

  /** What preparation may hand over: a text within size whose citations are all backed, and
      that the guard accepts, unless a reference definition has a number as its label. */
  ghost predicate Prepared(lower: CaseMap, ev: EvidenceWindow, content: string) {
    && ByteLen(content) <= MAX_DRAFT_BYTES && Backed(lower, ev, content)
    && (NumberFree(lower, content) ==> GuardAccepts(lower, ev, content))
  }

  lemma {:induction false} AcceptedPasses(lower: CaseMap, ev: EvidenceWindow, toolCalls: bool, truncated: bool, content: string)
    requires QualityFailure(lower, ev, toolCalls, truncated, content) == Accepted
    ensures GuardAccepts(lower, ev, content) && Backed(lower, ev, content) && ByteLen(content) <= MAX_DRAFT_BYTES && !Blank(content)
  {
  }

  /** Validation before expansion is enough for the guard after it, but for one thing: a
      citation must be left that no written marker with a defined label protects. */
  lemma {:induction false} AcceptedStaysAcceptableIff(lower: CaseMap, ev: EvidenceWindow, toolCalls: bool, truncated: bool, content: string)
    requires QualityFailure(lower, ev, toolCalls, truncated, content) == Accepted
    ensures GuardAccepts(lower, ev, Canonicalized(lower, ev, content)) <==> (ev.hasEvidence ==> CitationLeft(lower, content, ev.allowed))
    ensures Backed(lower, ev, Canonicalized(lower, ev, content))
  {
    if ev.hasEvidence {
      PreparedDraftStaysValidIff(lower, content, ev.allowed, true);
      PreparedDraftStaysValidIff(lower, content, ev.allowed, false);
    }
  }

  /** The same, as a condition on the text handed over. */
  lemma {:induction false} AcceptedIsPrepared(lower: CaseMap, ev: EvidenceWindow, toolCalls: bool, truncated: bool, content: string)
    requires QualityFailure(lower, ev, toolCalls, truncated, content) == Accepted
    requires ByteLen(Canonicalized(lower, ev, content)) <= MAX_DRAFT_BYTES
    ensures Prepared(lower, ev, Canonicalized(lower, ev, content))
  {
    hide Canonicalized, ValidAdjacentOf, CitationLeft;
    AcceptedStaysAcceptableIff(lower, ev, toolCalls, truncated, content);
    if NumberFree(lower, Canonicalized(lower, ev, content)) && ev.hasEvidence {
      DraftKeepsDefinitions(lower, ev, content);
      NumberFreeSuffices(lower, content, ev.allowed);
      NoLabelLeavesCitation(lower, content, ev.allowed);
    }
  }

  lemma {:induction false} DraftKeepsDefinitions(lower: CaseMap, ev: EvidenceWindow, content: string)
    ensures NumberFree(lower, Canonicalized(lower, ev, content)) <==> NumberFree(lower, content)
  {
    CanonicalizeKeepsDefinitions(lower, content, Usable(ev));
  }

  /** The condition is needed: a draft accepted here that the guard refuses once expanded. */
  lemma {:induction false} AcceptedDraftRefused(lower: CaseMap, ev: EvidenceWindow)
    requires ev.hasEvidence && ev.allowed(2) && ev.allowed(3)
    ensures var content := "[2,3][2,3]\n\n[3]: x";
      QualityFailure(lower, ev, false, false, content) == Accepted && !GuardAccepts(lower, ev, Canonicalized(lower, ev, content))
  {
    hide ValidAdjacentOf, Contains, ByteLen, CanonicalizeAdjacentOf;
    ReferenceHazard.RewritingLosesCitations(lower, ev.allowed);
    var content := "[2,3][2,3]\n\n[3]: x";
    ReferenceHazard.ByteLenAtMost(content);
    assert !IsSpace(content[0]);
    NoProtocolText(content);
  }

  lemma {:induction false} NoProtocolText(content: string)
    requires '`' !in content && '<' !in content
    ensures !Contains(content, "```tool_code") && !Contains(content, "<tool_call>")
  {
    forall i | 0 <= i <= |content| ensures !HasPrefix(content[i..], "```tool_code") && !HasPrefix(content[i..], "<tool_call>") {
      if |content| - i >= 1 {
        assert content[i] in content;
        if |content| - i >= 12 { assert content[i..][..12][0] == content[i]; }
        if |content| - i >= 11 { assert content[i..][..11][0] == content[i]; }
      }
    }
  }

  /** An analysis that could stand in for the writer's draft. */
  predicate Acceptable(lower: CaseMap, ev: EvidenceWindow, analysis: string) {
    QualityFailure(lower, ev, false, false, Canonicalized(lower, ev, analysis)) == Accepted
  }

  /** The fallback is the last acceptable analysis, canonicalised, and there is none exactly
      when no analysis is acceptable. */
  predicate IsFallback(lower: CaseMap, ev: EvidenceWindow, analyses: seq<string>, r: Option<string>) {
    match r
    case None => forall k :: 0 <= k < |analyses| ==> !Acceptable(lower, ev, analyses[k])
    case Some(text) =>
      exists i :: 0 <= i < |analyses| && Acceptable(lower, ev, analyses[i]) && text == Canonicalized(lower, ev, analyses[i])
                  && forall k :: i < k < |analyses| ==> !Acceptable(lower, ev, analyses[k])
  }

  method ValidatedMergedDraftFallback(lower: CaseMap, ev: EvidenceWindow, analyses: seq<string>) returns (r: Option<string>)
    ensures IsFallback(lower, ev, analyses, r)
    ensures r.Some? ==> GuardAccepts(lower, ev, r.value) && Backed(lower, ev, r.value) && ByteLen(r.value) <= MAX_DRAFT_BYTES
  {
    hide QualityFailure, Canonicalized, GuardAccepts, Backed;
    var i := |analyses|;
    while i > 0
      invariant 0 <= i <= |analyses|
      invariant forall k :: i <= k < |analyses| ==> !Acceptable(lower, ev, analyses[k])
    {
      i := i - 1;
      var normalized := CanonicalizeDraftCitations(lower, ev, analyses[i]);
      if QualityFailure(lower, ev, false, false, normalized) == Accepted {
        AcceptedPasses(lower, ev, false, false, normalized);
        return Some(normalized);
      }
    }
    return None;
  }

  class SummaryDraftState {
    var handle: string
    var text: string
    var tokens: nat
    var err: Option<Reason>

    constructor ()
      ensures handle == "" && text == "" && tokens == 0 && err == None
    {
      handle, text, tokens, err := "", "", 0, None;
    }

    /** prepare_summary_draft. A prepared draft is immutable. A new one is written exactly
        when the call is in order and the Map/Reduce gate is open: then the writer's answers
        decide, at most three of them, whether there is a draft or a failure, and a failure is
        final. */
    method Prepare(lower: CaseMap, emptyArgs: bool, active: bool, routeAllows: bool, store: HandleStore.SummaryHandleStore,
                   ev: EvidenceWindow, analyses: seq<string>, writer: Writer)
      returns (ok: bool, calls: nat)
      modifies this
      ensures calls <= 1 + MAX_SUMMARY_DRAFT_REPAIRS
      ensures old(handle) != "" ==> handle == old(handle) && text == old(text) && err == old(err) && calls == 0
      ensures old(handle) == "" && handle != "" ==>
                MapReduceProtocol.GatePasses(store.State()) && Prepared(lower, ev, text) && Written(lower, ev, analyses, writer, calls, text)
      ensures handle == "" ==> text == old(text)
      ensures old(err).Some? ==> err == old(err) && handle == old(handle) && calls == 0
      ensures old(err) == None && err.Some? ==> handle == old(handle) && Rejected(lower, ev, analyses, writer, calls, err.value)
      ensures old(handle) == "" && old(err) == None ==>
                if emptyArgs && active && routeAllows && MapReduceProtocol.GatePasses(store.State()) && !(ev.hasEvidence && analyses == [])
                then if err.Some? then handle == "" else handle == "draft_" + writer.uuid
                else handle == "" && err == None && calls == 0
      ensures tokens == old(tokens) + WriterTokens(writer, calls)
      ensures ok <==> handle != "" && emptyArgs && active
    {
      hide QualityFailure, IsFallback, Verdict, Canonicalized, GuardAccepts, Backed, NumberFree, MapReduceProtocol.GatePasses;
      calls := 0;
      if !emptyArgs || !active {
        return false, 0;
      }
      if handle != "" {
        return true, 0;
      }
      if err.Some? {
        return false, 0;
      }
      if !routeAllows {
        return false, 0;
      }
      var needsReduce := store.NeedsReduce();
      GateOpen(store.State());
      if |store.mapFailures| > 0 || needsReduce {
        return false, 0;
      }
      if ev.hasEvidence && analyses == [] {
        return false, 0;
      }
      var written, spent;
      written, calls, spent := Write(lower, ev, analyses, writer);
      tokens := tokens + spent;
      match written
      case Failed(reason) =>
        err := Some(reason);
        return false, calls;
      case Finished(draft) =>
        handle, text := "draft_" + writer.uuid, draft;
        return true, calls;
    }
  }

  datatype DraftResult = Finished(text: string) | Failed(reason: Reason)

  /** The writer is asked at most three times; its first answer that is not turned down is the
      draft, and after the last one the fallback. */
  method Write(lower: CaseMap, ev: EvidenceWindow, analyses: seq<string>, writer: Writer)
    returns (r: DraftResult, calls: nat, tokens: nat)
    ensures calls <= 1 + MAX_SUMMARY_DRAFT_REPAIRS && tokens == WriterTokens(writer, calls)
    ensures r.Finished? ==> Written(lower, ev, analyses, writer, calls, r.text) && Prepared(lower, ev, r.text)
    ensures r.Failed? ==> Rejected(lower, ev, analyses, writer, calls, r.reason)
  {
    hide QualityFailure, IsFallback, Verdict, Canonicalized, GuardAccepts, Backed, NumberFree;
    calls, tokens := 0, 0;
    var attempt := 0;
    while true
      invariant 0 <= attempt <= MAX_SUMMARY_DRAFT_REPAIRS && calls == attempt && tokens == WriterTokens(writer, calls)
      invariant forall n :: 0 <= n < attempt ==> Refused(lower, ev, writer, n)
      decreases MAX_SUMMARY_DRAFT_REPAIRS - attempt
    {
      if writer.over(attempt) {
        return Failed(ModelCall), calls, tokens;
      }
      var turn := writer.turn(attempt);
      calls := calls + 1;
      tokens := tokens + turn.tokens;
      if turn.failed {
        return Failed(ModelCall), calls, tokens;
      }
      var reason, normalized := Judge(lower, ev, turn);
      if reason == Accepted {
        return Finished(normalized), calls, tokens;
      }
      if attempt >= MAX_SUMMARY_DRAFT_REPAIRS {
        if reason == InvalidCitations {
          var fallback := ValidatedMergedDraftFallback(lower, ev, analyses);
          if fallback.Some? {
            return Finished(fallback.value), calls, tokens;
          }
        }
        return Failed(reason), calls, tokens;
      }
      attempt := attempt + 1;
    }
  }

  lemma {:induction false} GateOpen(s: HandleStore.Store)
    ensures |s.mapFailures| == 0 && !HandleStore.NeedsReduceIn(s) <==> MapReduceProtocol.GatePasses(s)
  {
    assert |s.mapFailures| == |s.mapFailures.Keys|;
  }

  /** The verdict on one writer answer: judged before expansion, measured after it. */
  function Verdict(lower: CaseMap, ev: EvidenceWindow, turn: WriterTurn): Reason {
    var reason := QualityFailure(lower, ev, turn.toolCalls, turn.truncated, turn.content);
    if reason == Accepted && ByteLen(Canonicalized(lower, ev, turn.content)) > MAX_DRAFT_BYTES then TooLarge else reason
  }

  /** The tokens of the writer's first answers. */
  function WriterTokens(writer: Writer, calls: nat): nat {
    if calls == 0 then 0 else WriterTokens(writer, calls - 1) + writer.turn(calls - 1).tokens
  }

  /** The writer's n-th answer was asked for, given and turned down. */
  predicate Refused(lower: CaseMap, ev: EvidenceWindow, writer: Writer, n: nat) {
    !writer.over(n) && !writer.turn(n).failed && Verdict(lower, ev, writer.turn(n)) != Accepted
  }

  /** A text handed over after `calls` answers is the canonical form of the first answer
      that is not turned down; or, when the last repair still cites wrongly, the fallback. */
  ghost predicate Written(lower: CaseMap, ev: EvidenceWindow, analyses: seq<string>, writer: Writer, calls: nat, text: string) {
    && 1 <= calls <= 1 + MAX_SUMMARY_DRAFT_REPAIRS
    && (forall n :: 0 <= n < calls - 1 ==> Refused(lower, ev, writer, n))
    && var last := writer.turn(calls - 1);
      && !writer.over(calls - 1) && !last.failed
      && (match Verdict(lower, ev, last)
          case Accepted => text == Canonicalized(lower, ev, last.content)
          case InvalidCitations => calls == 1 + MAX_SUMMARY_DRAFT_REPAIRS && IsFallback(lower, ev, analyses, Some(text))
          case _ => false)
  }

  /** A run's draft fails for good after `calls` answers: the request is over, the model
      fails, or every repair is used up and no fallback remains. */
  ghost predicate Rejected(lower: CaseMap, ev: EvidenceWindow, analyses: seq<string>, writer: Writer, calls: nat, reason: Reason) {
    if reason == ModelCall then
      || (calls <= MAX_SUMMARY_DRAFT_REPAIRS && writer.over(calls) && forall n :: 0 <= n < calls ==> Refused(lower, ev, writer, n))
      || (1 <= calls <= 1 + MAX_SUMMARY_DRAFT_REPAIRS && !writer.over(calls - 1) && writer.turn(calls - 1).failed
          && forall n :: 0 <= n < calls - 1 ==> Refused(lower, ev, writer, n))
    else
      && calls == 1 + MAX_SUMMARY_DRAFT_REPAIRS
      && (forall n :: 0 <= n < calls ==> Refused(lower, ev, writer, n))
      && reason == Verdict(lower, ev, writer.turn(calls - 1))
      && (reason == InvalidCitations ==> IsFallback(lower, ev, analyses, None))
  }

  /** The answers decide: there is at most one draft, and none if there is a failure. */
  lemma {:induction false} DraftIsDetermined(lower: CaseMap, ev: EvidenceWindow, analyses: seq<string>, writer: Writer,
                                             calls: nat, text: string, calls': nat, text': string)
    requires Written(lower, ev, analyses, writer, calls, text)
    ensures Written(lower, ev, analyses, writer, calls', text') ==> calls == calls' && text == text'
    ensures forall reason :: !Rejected(lower, ev, analyses, writer, calls', reason)
  {
    hide Verdict, Canonicalized, Acceptable;
    VerdictIsNoFailure(lower, ev, writer);
    var refused := (n: nat) => Refused(lower, ev, writer, n);
    assert refused(calls - 1) <==> Refused(lower, ev, writer, calls - 1);
    assert calls' > 0 ==> (refused(calls' - 1) <==> Refused(lower, ev, writer, calls' - 1));
    assert refused(calls') <==> Refused(lower, ev, writer, calls');
  }

  lemma {:induction false} VerdictIsNoFailure(lower: CaseMap, ev: EvidenceWindow, writer: Writer)
    ensures forall n :: Verdict(lower, ev, writer.turn(n)) != ModelCall
  {
  }

  method Judge(lower: CaseMap, ev: EvidenceWindow, turn: WriterTurn) returns (reason: Reason, normalized: string)
    ensures reason == Verdict(lower, ev, turn) && reason != ModelCall
    ensures reason == Accepted ==> normalized == Canonicalized(lower, ev, turn.content) && Prepared(lower, ev, normalized)
  {
    reason := QualityFailure(lower, ev, turn.toolCalls, turn.truncated, turn.content);
    normalized := turn.content;
    if reason == Accepted {
      normalized := CanonicalizeDraftCitations(lower, ev, turn.content);
      if ByteLen(normalized) > MAX_DRAFT_BYTES {
        reason := TooLarge;
      } else {
        AcceptedIsPrepared(lower, ev, turn.toolCalls, turn.truncated, turn.content);
      }
    }
  }
}
