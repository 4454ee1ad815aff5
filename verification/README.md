# Verified model of the summarisation agent

A Dafny model of the parts of the service in which a bug would be silent: the planner loop
and its Map/Reduce completeness gate, the transcript it shows and stores, the token-budget
splitter, the bisecting batch fetch, the notification rows, the model fallback and the
streaming client, and the citation and Markdown text passes. The language model, the message
search service, the database and the clock are arbitrary environments: every theorem holds
for whatever they do.

Code that changes state in the service is a class or a method with loops here (the handle
store, the draft state, the gate's table of runs, the notification table, the planner loop,
the fallback loops, the stream decoder, the list and text passes). Each such method is proved
equal to a specification function or to a relation on the old and new state, and the promises
of the service are lemmas about those.

Where to start:

- `AgentRunner.RunWithHistoryOutcome` - one whole agent run. It records its events; `RunTrace`
  says what may follow what, when a run answers and why it fails. The store operations it
  dispatched are a run of the protocol of `MapReduceProtocol`, so that an accepted answer is
  known to rest on one Reduce over every Map result; what it submits is the draft it prepared.
- `MapReduceProtocol` - the same protocol as a state machine with free interleaving of the
  concurrent calls of a step.
- `Transcript`, `Compaction` and `ReplayRecord` - what a planner is shown, what a run stores, and
  why the stored record passes the next turn's filters unchanged; `TranscriptMeaning` says what
  each pass keeps of a history that needs repair.
- `CitationMeaning` - what is a marker and which numbers it denotes, read off the text;
  `LineMeaning`, `SpanMeaning`, `LinkMeaning` and `ProtectMeaning` - the same for the protected
  spans, and `StreamClient.StreamSucceedsIff` for the lines of a stream.
- `Markdown`, `ProtectedSpans` and `MarkdownStable` - which characters of a text Markdown
  protects, and what rewriting a citation group does to that; `CitationRewrite`,
  `CitationHidden` and `CitationString` build on it what expanded citations are worth when the
  string is read again.
- `TokenChunk.SplitByTokenBudget`, `BatchFetch.BisectionEqualsUnsplitQuery`,
  `Notify.DuplicatesNeedLostOwners`, `StreamClient.NoDoubleEmission`,
  `RefineRoute.LeadsIffModifies`, `Setext.NormalizeIdempotent` - the central theorem of each
  other part.

## What the proofs showed about the code

- Expanding a citation group can take citations away. Protected spans are derived afresh from
  every string, and a written `[3]` in a text that defines the reference label `3` is a
  reference link: it is protected, and so is a bracket right before it. Of
  `"[2,3][2,3]\n\n[3]: x"` the canonical form has no citation left
  (`ReferenceHazard.RewritingLosesCitations`), so a draft that preparation accepted is refused
  on submission (`SummaryDraft.AcceptedDraftRefused`), and the strict boundary loses its
  evidence the same way. The proofs say exactly when: deriving protection again gives what was
  there before if and only if no written number is a label
  (`CitationRewrite.ExpansionProtection`). In any case the new protection only hides markers:
  what remains is backed, and canonicalising is idempotent, for every string. Only a demand for
  at least one citation can fail, exactly when none is left
  (`CitationString.PreparedDraftStaysValidIff`, `CitationString.CanonicalizeIsAtomic`).
- `validatedMergedDraftFallback` checks an analysis after expanding its citations and so is not
  affected; the writer's draft is checked before (`Submission.PreparedIsSubmittableIff`).
- A success of a Map call may clear the failure of a different call: when it cannot clear its
  own target's failure it clears one older anonymous failure, and the iteration order of a map
  decides which (`MapReduceProtocol.SuccessClearsAnotherIff`, and a run in
  `MapReduceProtocol.AnotherFailureCleared`). The completeness theorem holds nevertheless.
- The number of attempts a fallback switch reports is read from the error chain. `Fallback.Run`
  proves when every switch reports the attempts made; for errors that come from no other run it
  always does. The clients of this repository never nest runs, so their reports are exact
  (`StreamClient.Stream`); an upstream that did would make every run misreport
  (`Fallback.NestedRunMisreports`).
- Without a terminal tool in the policy the sanitising pass is skipped and an orphaned tool
  result reaches the planner (`Transcript.OrphanSurvivesWithoutTerminal`); correctness for every
  history is guaranteed exactly with one (`Transcript.ProtocolGuaranteedIff`).
- The mark statements of a notification row carry no guard. `sent` is final only while owners
  keep to their lease: it stays closed if and only if no late failure mark arrives that leaves
  budget (`Notify.SentStaysClosedIff`), and such a mark can cause a second delivery
  (`Notify.LateMarkDuplicatesDelivery`). Reclaiming a row counts no attempt, so owners that are
  lost between delivery and mark allow any number of deliveries
  (`Notify.LostOwnersDeliverWithoutBound`).

## Model

| member | source | states |
|---|---|---|
| HandleStore.HandleNameInjective | internal/agent/summary_handle_store.go:110-111 | distinct ordinals of one store never give the same handle |
| HandleStore.PutExtendsLog | internal/agent/summary_handle_store.go:96-124 | a put either fails and changes nothing, or adds one entry under a handle never issued before; results are never lost or replaced and both capacity limits stay respected |
| HandleStore.ResolveIsComplete | internal/agent/summary_handle_store.go:126-175 | a resolution succeeds if and only if no Map failure is pending, the handles are nonempty, without repeats, exactly the stored ones, and all from earlier steps; it then returns their entries in the given order with the current generation |
| HandleStore.SummaryHandleStore.constructor | internal/agent/summary_handle_store.go:69-75 | a new store is empty and consistent with an empty log |
| HandleStore.SummaryHandleStore.PutAtStep | internal/agent/summary_handle_store.go:96-124 | result, error precedence and whole new state of a put, with the log of results extended exactly on success |
| HandleStore.SummaryHandleStore.ResolveAllBefore | internal/agent/summary_handle_store.go:134-175 | the loop over the handles returns the first objection in the source's order, or the entries and generation characterised by ResolveIsComplete |
| HandleStore.SummaryHandleStore.MarkMapFailed | internal/agent/summary_handle_store.go:190-194 | records the failure of the target at the step, nothing else changes |
| HandleStore.SummaryHandleStore.MarkMapSucceeded | internal/agent/summary_handle_store.go:203-216 | clears the target's own older failure, or else one older anonymous failure if there is one, or nothing; no other field changes, for every iteration order of the map |
| HandleStore.SummaryHandleStore.MarkReduced | internal/agent/summary_handle_store.go:239-245 | the reduced generation moves only when no Map result appeared since the resolution |
| HandleStore.SummaryHandleStore.NeedsReduce | internal/agent/summary_handle_store.go:247-251 | true exactly when results are newer than the last Reduce that took effect |
| MapReduceProtocol.ResolutionCovers | internal/agent/summary_handle_store.go:126-175 | what a successful resolution feeds to Reduce is, as a multiset, every Map result put so far, each once |
| MapReduceProtocol.ResolveNeedsEarlierMaps | internal/agent/summary_handle_store.go:157-165 | no Reduce can start in a step that has already produced a Map result |
| MapReduceProtocol.InvPreserved | internal/agent/summary_handle_store.go:96-251 | every atomic action (put, failure, success, resolve, mark reduced, next step) keeps the protocol invariant |
| MapReduceProtocol.InvHolds | internal/agent/summary_handle_store.go:96-251 | the invariant holds in every state of every run, under every interleaving |
| MapReduceProtocol.GateMeansComplete | internal/agent/runner.go:263-267 | the gate opens if and only if no Map failure is pending and nothing was mapped or the last Reduce that took effect was fed every Map result exactly once |
| MapReduceProtocol.AcceptedAnswerIsComplete | internal/agent/runner.go:257-308 | whole-run completeness: at the end of any run whose gate passes, some one Reduce that took effect covered exactly the Map results present |
| MapReduceProtocol.FailureOutlivesItsStep | internal/agent/summary_handle_store.go:196-216 | a Map failure is still pending when its step ends, whatever successes, puts or Reduces interleave in that step |
| MapReduceProtocol.MapForcesLaterReduce | internal/agent/summary_handle_store.go:236-251 | a Map result put in a step leaves a Reduce due when that step ends, whatever Reduces run in it |
| MapReduceProtocol.SuccessClearsAtMostOne | internal/agent/summary_handle_store.go:196-216 | a success clears at most one failure, its target's or an anonymous one, never one recorded in its own step |
| MapReduceProtocol.SuccessClearsAnotherIff | internal/agent/summary_handle_store.go:196-216 | some iteration order of the map lets a success clear the failure of another target if and only if it has no older failure of its own to clear and another anonymous failure is older than the step |
| MapReduceProtocol.AnotherFailureCleared | internal/agent/summary_handle_store.go:196-216 | a run of the protocol in which that happens |
| AgentRunner.CallPlanner | internal/agent/runner.go:195-212 | each model call is counted, its prompt is on record as exactly the transcript so far, and the turn in hand is the one the record names |
| AgentRunner.PlanTurn | internal/agent/runner.go:184-254 | the inner loop: turns in need of a repair or nudge are sent back within the two limits of two, a turn is taken only with valid arguments and, after preparation, only if it is a terminal submission; an error is one with which the record may end there |
| AgentRunner.ReviewTurn | internal/agent/runner.go:213-252 | one turn of the inner loop is taken, ends the run or is sent back exactly as the decision on the record says; sending back uses up one of the repairs or nudges |
| AgentRunner.RejectAtGate | internal/agent/runner.go:263-308 | the completeness gate tells the model and stores nothing; it fails the run exactly at the last step, and cannot fire once a draft exists |
| AgentRunner.RejectText | internal/agent/runner.go:311-352 | a text under a terminal policy, or a blank one, is answered with what is missing; it fails the run exactly at the last step |
| AgentRunner.SubmitTurn | internal/agent/runner.go:387-431 | the handler's verdict on the submission, with the draft of this run, is recorded; acceptance ends the run with its reply |
| AgentRunner.FinalAttempt | internal/agent/runner.go:257-432 | an attempt is recorded with the state of the gate and a submission with its verdict; the run is answered with that text or reply, or sent back to the model with a message, or at the last step failed, each as the record allows; an accepted preview carries the prepared draft |
| AgentRunner.SubmissionTold | internal/agent/runner.go:387-432 | what an accepted submission says about the run: it was judged against the draft the events tell of, and a preview holds that draft's text and passes the guard |
| AgentRunner.AnswerStep | internal/agent/runner.go:257-432 | the answer of an accepted turn is returned and stored behind the record of the run; a rejected one is sent back, or ends the run with nothing stored, as the record allows |
| AgentRunner.RunStep | internal/agent/runner.go:162-532 | one turn of the loop keeps the invariant and counts a step or prepares the draft, or ends the run |
| AgentRunner.ApplyOne | internal/agent/runner.go:719-745 | one store operation of a concurrent call is one action of the Map/Reduce protocol |
| AgentRunner.ApplyActions | internal/agent/runner.go:688-804 | a batch of concurrent calls, in any order of their store operations, extends the protocol run by exactly those operations |
| AgentRunner.RunTools | internal/agent/runner.go:595-604 | a batch mixing draft preparation with other calls is rejected whole; a lone preparation call in order behind an open gate leaves the draft or the failure that the writer's answers decide, any other batch leaves neither; results, store operations and tokens are those of the batch |
| AgentRunner.AppendBatch | internal/agent/runner.go:440-487 | transcript and record grow by exactly the round, and by the budget message when the tokens are used up; the one stays protocol-correct and the other clean |
| AgentRunner.FinishBatch | internal/agent/runner.go:474-530 | a preparation that wrote a draft is recorded behind its results and gives its step back once; the budget equation still balances |
| AgentRunner.ToolStep | internal/agent/runner.go:432-530 | a tool step keeps the run's invariant, its store operations are one step of the protocol, and it fails the run only with the draft's failure |
| AgentRunner.EndStep | internal/agent/runner.go:162 | counting the step is the protocol's step boundary |
| AgentRunner.StartRun | internal/agent/runner.go:111-160 | the initial transcript is protocol-correct for any stored history, and the store starts empty |
| AgentRunner.GateTells | internal/agent/runner.go:263-267 | a passing gate at the end of a traced run means completeness of that run |
| AgentRunner.AnswerIsStored | internal/agent/runner.go:366-431 | an answer appended to a clean record leaves the user message first, the answer last, only round messages between, and nothing to repair |
| AgentRunner.RunWithHistoryOutcome | internal/agent/runner.go:107-532 | for every environment: the run answers if and only if its last recorded attempt was acceptable, the gate being open in the store of that moment and the submission accepted with the draft of that moment, or its text not blank without a terminal policy; the outcome is that attempt's text or reply, and every error has its cause; the events follow one another as the rules say, each prompt being the transcript they make up; at most MaxSteps + 5 planner calls; every prompt protocol-correct; no dispatch, gate rejection or other draft after preparation; one draft text, within size and wholly backed by the evidence it was prepared from; dispatched store operations forming a run of the Map/Reduce protocol that is complete when an answer is returned; an accepted preview carries the draft's text and passes the guard; an answer is stored behind the user message and exactly the recorded rounds, an error stores nothing |
| RunTrace.AnswersIff | internal/agent/runner.go:257-432 | any record whose events follow the rules, with an outcome it may end with: there is an answer exactly if the last attempt was acceptable, an acceptable attempt is always the last, and the outcome is that turn's text or that submission's reply |
| RunTrace.ErrorsHaveCauses | internal/agent/runner.go:162-532 | each error only for its cause: a failed planner call, a nonterminal turn or used-up nudges after preparation, a nonterminal turn after a repair over budget, used-up repairs or budget, a rejected draft, a closed gate, a text without the terminal tool, a blank text or a refused submission at the last step, or all steps used; and no attempt was acceptable |
| SummaryDraft.CanonicalizeDraftCitations | internal/agent/summary_draft.go:261-284 | expansion of the string uses the fetched evidence, or without evidence only the referenced indices |
| SummaryDraft.EmitCitationGuard | internal/agent/tool_emit_summary_response.go:284-300 | the submission guard accepts exactly strings without fetched evidence or, their protected spans derived, with valid adjacent citations and at least one of them |
| SummaryDraft.AcceptedStaysAcceptableIff | internal/agent/summary_draft.go:171-182 | after expansion a validated draft is always wholly backed, and the guard accepts it if and only if there is no evidence or a citation is left that no written marker with a defined label protects |
| SummaryDraft.AcceptedIsPrepared | internal/agent/summary_draft.go:171-182 | without a reference definition whose label is a number the guard accepts it |
| SummaryDraft.AcceptedDraftRefused | internal/agent/summary_draft.go:171-182 | a draft that preparation accepts and whose expansion the guard refuses |
| SummaryDraft.ValidatedMergedDraftFallback | internal/agent/summary_draft.go:211-220 | the result is the last analysis whose canonical form passes every check, none exactly when no analysis does, and the guard accepts it, because it is checked after expansion |
| SummaryDraft.Judge | internal/agent/summary_draft.go:170-182 | the verdict on one writer answer; an accepted one is canonical, within size, wholly backed, and passes the guard if no definition is labelled by a number |
| SummaryDraft.GateOpen | internal/agent/summary_draft.go:115-118 | the preparation tool's precondition is the completeness gate |
| SummaryDraft.SummaryDraftState.Prepare | internal/agent/summary_draft.go:92-203 | a prepared draft never changes and a failure is final; the writer is asked exactly if the call is in order, the gate open and there are analyses where evidence is, and then a draft under the handle of its identifier, or a failure, is left as the writer's answers decide; the tokens of exactly the answers asked for are added |
| SummaryDraft.Write | internal/agent/summary_draft.go:160-203 | the writer loop: the canonical form of the first answer not turned down, or after the last repair the fallback, or a failure that says why; at most three answers |
| SummaryDraft.DraftIsDetermined | internal/agent/summary_draft.go:160-203 | the writer's answers decide the draft: there is at most one text and number of answers, and none if there is a failure |
| Submission.ResolveDraftArguments | internal/agent/summary_draft.go:294-331 | in a live workspace a preview resolves exactly when it names this run's draft and carries no text of its own, and then carries the draft's text; a legacy run passes inline text and refuses handles |
| Submission.Submit | internal/agent/tool_emit_summary_response.go:270-308 | the handler, in the order of its checks, accepts exactly what the specification of the submission accepts, with the text the handle stands for |
| Submission.LivePreviewAcceptedIff | internal/agent/tool_emit_summary_response.go:270-308 | in a live workspace a preview is accepted if and only if it names this run's draft, its shape and type are allowed, and the draft is not blank and passes the guard |
| Submission.AcceptedCarriesDraft | internal/agent/summary_draft.go:294-331 | what a live workspace accepts carries the text of an existing draft or no text, and an accepted preview passes the guard |
| Submission.CanonicalIsNotBlank | internal/agent/summary_draft.go:170-182 | expanding citations never turns a text blank |
| Submission.PreparedIsSubmittableIff | internal/agent/summary_draft.go:161-203 | every text preparation can hand over is not blank, within size and wholly backed; the guard accepts it if and only if it is the fallback, or there is no evidence, or its expansion leaves a citation that no written marker with a defined label protects |
| CoverageGate.CoverageGateRuns.AdmitCoverageBlock | internal/agent/coverage_gate.go:160-208 | decision and new state of one question, other runs untouched |
| CoverageGate.CoverageGateRuns.MarkCoverageGateSatisfied | internal/agent/coverage_gate.go:223-237 | satisfaction keeps rounds and signature and lifts a standing block |
| CoverageGate.BlockedStepsBounded | internal/agent/coverage_gate.go:154-159 | whatever is asked and in whatever order, a run is blocked in at most maxRounds distinct steps |
| CoverageGate.OneDecisionPerStep | internal/agent/coverage_gate.go:154-159 | every call of one step gets the first call's decision, whatever the signatures and interleaving, unless coverage was marked satisfied in between; then it is let through |
| CoverageGate.BlockLeavesBudget | internal/agent/coverage_gate.go:94-101 | a new block leaves two steps for each remaining round and four to finish, and satisfied coverage never blocks |
| Transcript.StripInvalidToolHistory | internal/agent/history.go:275-292 | the index loop is the specified pass: batches with invalid arguments go with their results, their nonblank text stays |
| Transcript.StripTerminalToolHistory | internal/agent/history.go:147-179 | the loop with its set of terminal ids is the specified pass |
| Transcript.SanitizeToolProtocolHistory | internal/agent/history.go:213-270 | the group loop is the specified pass |
| Transcript.TruncateHistory | internal/agent/history.go:29-50 | the window is a suffix with exactly n user turns starting at one of them, or everything if there are fewer or n is not positive |
| Transcript.SanitizeIsProtocol | internal/agent/history.go:208-270 | for any history the sanitised one is empty or starts with a user turn and follows the assistant/tool protocol |
| Transcript.SanitizeIsIdentityIff | internal/agent/history.go:208-270 | sanitising changes nothing exactly on protocol-correct histories that start with a user turn, and is idempotent |
| Transcript.ProtocolMeaning | internal/agent/history.go:208-270 | in a protocol-correct history every tool message sits in the block right after an assistant turn that called its id, and every call has valid arguments and a nonempty id answered in that block |
| Transcript.StripFromRemoves | internal/agent/history.go:142-206 | after stripping a tool no call or result of it remains, and stripping one tool brings no other back |
| TranscriptMeaning.SanitizeMeaning | internal/agent/history.go:208-270 | for any history, by position: from the first user turn on, exactly every message that is neither a result nor a batch, every batch whose arguments are valid and whose ids are nonempty and all answered in the block right behind it, and of such a block exactly the results whose id it called; in order |
| TranscriptMeaning.StripInvalidMeaning | internal/agent/history.go:275-292 | for any history, by position: a message with invalid arguments keeps at most its nonblank text, the results right behind it go, everything else stays |
| TranscriptMeaning.StripTerminalMeaning | internal/agent/history.go:142-206 | for any history, by position: a batch keeps the calls of other tools, loses its text with any call it loses and goes with its last one; results go that name the tool or answer a call of it in the batch in front; everything else stays |
| TranscriptMeaning.PlannerHistorySays | internal/agent/runner.go:141-148 | the conversation survives the whole pipeline: the planner sees, in order, every turn of the stored history that is no result and no batch, and the text of malformed turns; from the first user turn on under a terminal policy |
| TranscriptMeaning.AnsweredRoundSurvives | internal/agent/runner.go:141-148 | a round of ordinary calls with valid arguments, all answered right behind it, that stands behind a user turn reaches the planner whole and in one piece under a terminal policy; only expired payloads are compacted |
| Compaction.CompactArguments | internal/agent/history.go:123-138 | the call arguments rewritten in a copy: only large or unfailed Reduce calls get the placeholder |
| Compaction.FailedCallIds | internal/agent/history.go:104-109 | the ids of nonempty failed results, collected in one pass |
| Compaction.CompactSummaryToolHistory | internal/agent/history.go:86-140 | the three passes over a copy of the history are the specified compaction |
| TranscriptMeaning.CompactMeaning | internal/agent/history.go:86-140 | by position: compaction keeps every message and changes payloads only, exactly those of successful Map and Reduce results and the arguments of Reduce calls that are large or did not fail |
| Compaction.CompactIdempotent | internal/agent/history.go:86-140 | compacting twice is compacting once |
| Compaction.PlannerHistoryIdempotent | internal/agent/runner.go:141-148 | what a planner sees of the past is a normal form: shown again it passes all five passes unchanged |
| Transcript.CompactKeepsProtocol | internal/agent/history.go:86-140 | compaction rewrites payloads only: the result is still protocol-correct |
| Transcript.PlannerHistoryIsProtocol | internal/agent/runner.go:141-148 | for ANY stored history the live workspace pipeline yields a protocol-correct transcript that is empty or starts with a user turn and holds no terminal or preparation call or result |
| Transcript.PlannerHistoryProtocol | internal/agent/runner.go:141-148 | the protocol part holds for every profile with a terminal tool |
| Transcript.OrphanSurvivesWithoutTerminal | internal/agent/runner.go:145-147 | without a terminal tool an orphaned tool result reaches the planner |
| Transcript.ProtocolGuaranteedIff | internal/agent/runner.go:141-148 | a protocol-correct transcript is guaranteed for every history if and only if the policy names a terminal tool |
| Transcript.CleanPassesUnchanged | internal/agent/history.go:147-292 | a clean transcript passes every stripping and sanitising pass unchanged |
| Transcript.ProtocolAppend | internal/agent/runner.go:440-487 | protocol-correct transcripts can be joined |
| Transcript.WindowKeepsProtocol | internal/agent/history.go:23-50 | cutting at a user turn never separates calls from results |
| ReplayRecord.RoundIsProtocol | internal/agent/runner.go:440-481 | a call batch followed by its results in order is protocol-correct |
| ReplayRecord.RoundStoresItsOwn | internal/agent/runner.go:446-486 | a round stores only its own assistant turn without control calls and results of its ordinary calls |
| ReplayRecord.RoundIsClean | internal/agent/runner.go:446-486 | what a round stores holds no terminal or preparation call or result and has every call answered in place |
| ReplayRecord.RecordReplaysUnchanged | internal/agent/history.go:142-292 | replay stability: a clean stored record is unchanged by every strip and sanitise pass of the next turn |
| TokenChunk.ClassifyRunes | internal/agent/token_chunk.go:66-75 | the two counts partition the runes at 0x7F |
| TokenChunk.BudgetCheckIsExact | internal/agent/token_chunk.go:123-143 | the running totals decide exactly whether the concatenated rendered lines fit |
| TokenChunk.PartFits | internal/agent/token_chunk.go:49-62 | every nonempty contiguous part of an admissible chunk is admissible |
| TokenChunk.GreedyStaysAhead | internal/agent/token_chunk.go:110-154 | the exchange argument: greedy packing of a suffix needs no more chunks than any admissible partition of a longer one |
| TokenChunk.GreedyIsOptimal | internal/agent/token_chunk.go:110-154 | no contiguous partition within the limits has fewer chunks |
| TokenChunk.ChunkCountMonotone | internal/agent/token_chunk.go:100-154 | a larger budget or cap never costs a chunk |
| TokenChunk.SplitByTokenBudget | internal/agent/token_chunk.go:110-154 | chunks concatenate to the input in order, are nonempty, within the message cap and (from two messages on) within the token budget, and no admissible partition has fewer |
| MapPhase.ClampChunkSize | internal/agent/tool_summarize_chunk.go:54-62 | always between 1 and the backstop, and the request itself when that is |
| MapPhase.FormatChunkForLLM | internal/agent/tool_summarize_chunk.go:461-472 | the prompt text is the billed rendering, every message counted, none cut |
| MapPhase.SummarizeMessagesChunk | internal/agent/tool_summarize_chunk.go:482-515 | one Map call renders and counts every message of its chunk, whatever the model answers |
| MapPhase.SummarizeSerially | internal/agent/tool_summarize_chunk.go:611-624 | the concurrency-one path: stops at the first error, keeps coverage so far |
| MapPhase.RunMapCalls | internal/agent/tool_summarize_chunk.go:626-660 | under every schedule within the permit bound each call leaves its result in its own slot |
| MapPhase.SummarizeChunksConcurrently | internal/agent/tool_summarize_chunk.go:598-677 | bounded concurrency refines the serial loop: same summaries, coverage and lowest-index error for every completion order |
| MapPhase.SerialCoverage | internal/agent/tool_summarize_chunk.go:611-624 | for every model a successful Map phase has processed every message of its chunks and counted every oversized one |
| MapPhase.NothingDropped | internal/agent/tool_summarize_chunk.go:598-677 | for every model, over the splitter's chunks: processed equals input, every oversized message is counted, and there is one summary per chunk |
| MapPhase.ProbeChunkCoverage | internal/agent/tool_summarize_chunk.go:75-86 | the probe reports every message processed, none dropped, and an optimal chunk count |
| BatchFetch.SplitBatch | internal/pipeline/octo_search_fetch.go:85-95 | splittable exactly from two channels on; the parts are two shorter nonempty ones and join to the whole |
| BatchFetch.LeavesPartition | internal/pipeline/octo_search_fetch.go:215-274 | the leaf requests of a bisection cover each point of channels x [start, end] exactly once and nothing outside |
| BatchFetch.AllLeavesPartition | internal/pipeline/octo_search_fetch.go:114-274 | the same for the leaves of all batches of a fetch |
| BatchFetch.RunIsAccounted | internal/pipeline/octo_search_fetch.go:215-274 | against a faithful store one batch returns each message once per served leaf covering it, nothing else |
| BatchFetch.SubmissionBound | internal/pipeline/octo_search_fetch.go:215-274 | bisection terminates after at most 2 C max(1, (W+1)/10800) - 1 submissions |
| BatchFetch.NormalizedIds | internal/pipeline/octo_search_fetch.go:42-61 | the requested channel ids have no repeats, for any normaliser |
| BatchFetch.NormalizeAndIndexCandidates | internal/pipeline/octo_search_fetch.go:42-61 | each usable id is listed once and maps to its first candidate |
| BatchFetch.Chunks | internal/pipeline/octo_search_fetch.go:65-78 | batches are nonempty, at most the size, and join to the ids |
| BatchFetch.ChunkChannelIDs | internal/pipeline/octo_search_fetch.go:65-78 | the slicing loop gives those batches, with the size clamped to 30 |
| BatchFetch.SortMessages | internal/pipeline/octo_search_fetch.go:193-199 | a sorted permutation by (channel, sequence) |
| BatchFetch.SortedIsUnique | internal/pipeline/octo_search_fetch.go:193-199 | with unique keys the sorted listing of a collection is unique, so completion order cannot show |
| BatchFetch.RunBatches | internal/pipeline/octo_search_fetch.go:137-191 | for every completion order the rows collected are those of all batches, unless a fatal error or the time budget aborts |
| BatchFetch.FetchViaBatch | internal/pipeline/octo_search_fetch.go:114-200 | fails exactly on a fatal batch or exhausted budget; else returns the batches' rows, sorted |
| BatchFetch.RowsAreAccounted | internal/pipeline/octo_search_fetch.go:114-200 | over all batches each stored message appears once per served leaf covering it |
| BatchFetch.FetchIsConservative | internal/pipeline/octo_search_fetch.go:114-274 | in every fetch a message is returned once if it matches the query and its leaf was served, and never otherwise |
| BatchFetch.BisectionEqualsUnsplitQuery | internal/pipeline/octo_search_fetch.go:114-274 | with every leaf served the result is exactly the sorted listing of the unsplit query |
| Notify.NotificationTable.constructor | internal/notify/notify.go:56-67 | MaxAttempts is positive and defaults to 3 |
| Notify.NotificationTable.Claim | internal/notify/notify.go:203-228 | wins exactly on a missing row and otherwise returns the existing one |
| Notify.NotificationTable.ClaimRetry | internal/notify/notify.go:235-248 | wins exactly on a failed row with budget left, which becomes pending |
| Notify.NotificationTable.ClaimStalePending | internal/notify/notify.go:656-666 | wins exactly on a pending row older than the cutoff, which gets a fresh stamp |
| Notify.NotificationTable.Mark | internal/notify/notify.go:319-347 | unguarded: status, one more attempt and a fresh stamp on that row only |
| Notify.NotificationTable.DeliverToRecipient | internal/notify/notify.go:143-187 | an uninterrupted pass delivers exactly on a new row or a failed one with budget, and counts one attempt |
| Notify.InvPreserved | internal/notify/notify.go:143-248 | every step of any number of runners, sweepers and crashes keeps the invariant |
| Notify.InvHolds | internal/notify/notify.go:143-248 | the invariant holds in every state of every run |
| Notify.OneLiveOwnerWithinBudget | internal/notify/notify.go:553-700 | at most one live runner owns the row; a pending row has attempt_count below MaxAttempts, and no row exceeds it |
| Notify.ClaimsAreConserved | internal/notify/notify.go:143-248 | each won claim became a counted attempt, was lost, or is still held |
| Notify.ClaimsAreBounded | internal/notify/notify.go:143-248 | retries terminate: wins are at most MaxAttempts plus lost owners plus runners still at work |
| Notify.LostOwnersDeliverWithoutBound | internal/notify/notify.go:623-700 | the term for lost owners is needed: with MaxAttempts 1 there is a run with any number of successful deliveries, because a reclaim counts no attempt |
| Notify.DeliveryFollowsAWin | internal/notify/notify.go:143-187 | every delivery follows a claim its own runner won |
| Notify.ClosedForever | internal/notify/notify.go:235-248 | sent is absorbing and so is an exhausted budget: the row never changes and no claim is won again |
| Notify.DuplicatesNeedLostOwners | internal/notify/notify.go:143-187 | successful deliveries equal the sent mark plus owners lost before marking plus owners still to mark |
| Notify.ClosedStepIff | internal/notify/notify.go:319-347 | with marks that may also come after the lease, one step leaves a closed row closed if and only if it is no late failure mark that leaves budget |
| Notify.SentStaysClosedIff | internal/notify/notify.go:319-347 | over any run: a row closed while the lease held stays closed if and only if no late failure mark with attempt_count + 1 below MaxAttempts arrives |
| Notify.LateMarkDuplicatesDelivery | internal/notify/notify.go:319-347 | a run without lost owners that delivers twice: claim, reclaim, sent, the first owner's late failure mark, a retry and a second delivery |
| Notify.LateMarkReopensSentRow | internal/notify/notify.go:319-347 | on one row: a failure mark after the lease makes a sent row retriable exactly when budget remains after it |
| Fallback.RunModel | internal/llmfallback/fallback.go:294-346 | one model gets at most its attempts in order, none after a success, terminal or next-model outcome; how it is left, that a last model is left only when used up, and what the error reports |
| Fallback.Run | internal/llmfallback/fallback.go:120-207 | for every upstream, cancellation and deadline: the event stream satisfies the monitor and ends with one result telling whether the last attempt succeeded; value and error are the last attempt's when that ended the run, and otherwise, unless the context died, every model was tried and the last one used up; every switch reports the attempts made if and only if no last attempt before a switch brings another run's marker with a different count |
| Fallback.TraceMeaning | internal/llmfallback/fallback.go:120-207 | what the monitor means on the events: models in order, attempts numbered from one and bounded, nothing after success or terminal but the single result event, its switches counted, exact switch reports equal to attempts made |
| Fallback.SpentAfterDenial | internal/llmfallback/fallback.go:278-288 | after a refused credential the count read from the error is the count made exactly when the wrapped error brings no starved marker with another count |
| Fallback.SpentAfterRetry | internal/llmfallback/fallback.go:278-288 | after a retry the deadline guard's marker always tells the truth, and used-up attempts do exactly when the wrapped error brings no marker with another count |
| Fallback.AlwaysTold | internal/llmfallback/fallback.go:278-288 | a condition on the upstream alone: if every attempt's error tells the truth at its number, every switch of every run does |
| Fallback.UnmarkedTells | internal/llmfallback/fallback.go:278-288 | errors that come from no nested run meet that condition |
| Fallback.NestedRunMisreports | internal/llmfallback/fallback.go:278-288 | over whole runs: with an upstream that fails with a nested run's error of more attempts, two models and a live context, every run makes a switch report that is wrong |
| StreamClient.DecodeStream | internal/llmclient/client.go:276-329 | the scanning loop gives the specified result and outcome and hands exactly the decoded deltas to the callback, in order, or none without one |
| StreamClient.StreamSucceedsIff | internal/llmclient/client.go:276-335 | from the lines: a stream is a success if and only if no line that is read is malformed or refused, there is no read error and the size limit is not used up, and some line read is the end marker or carries a finish reason; every failure is terminal exactly if something was emitted, else a retry of the same model |
| StreamClient.StreamReturns | internal/llmclient/client.go:276-335 | the content is, of the lines that are read, exactly the pieces of the answer in order; finish reason and usage are the last ones |
| StreamClient.AttemptMeaning | internal/llmclient/client.go:155-210 | how an attempt ends in every case: status classes, transport and build errors, an ended context, an oversized or broken body, the validator's verdict; it succeeds without error only on a complete body that the validator lets through |
| StreamClient.DecodingIsFaithful | internal/llmclient/client.go:276-329 | after any prefix of the lines, with a callback the content is the concatenation of the delivered deltas and emitted means some were; without one nothing is delivered and emitted stays false |
| StreamClient.EmissionCommits | internal/llmclient/client.go:155-210 | an attempt that delivered anything is a success or terminal, and its content is what it delivered, on success and on failure |
| StreamClient.OnlyTheLastAttemptDelivers | internal/llmclient/client.go:155-210 | over a whole run with retries and fallbacks the deltas are those of the attempt that ended it, or none |
| StreamClient.NoDoubleEmission | internal/llmclient/client.go:155-210 | an attempt that delivered is the last attempt of the run and the only one that delivered |
| StreamClient.AttemptsUnmarked | internal/llmclient/client.go:155-210 | no attempt of the client carries the marker of another run |
| StreamClient.NothingDelivered | internal/llmclient/client.go:276-329 | without a callback nothing is delivered in the whole run |
| StreamClient.Stream | internal/llmclient/client.go:155-210 | over a whole run every switch reports exactly the attempts made, the deltas delivered concatenate to exactly the returned content (none without a callback), result and error are the ending attempt's, and a run without error rests on a complete body |
| CitationMeaning.OneItemMeaning | internal/citationtext/citation.go:46-63 | a group without a comma denotes exactly what its text says: a number, or two with a dash between them, with any blanks around, in 1..99999 and at most 128 of them, each once and in order; and nothing otherwise |
| CitationMeaning.CommaMeaning | internal/citationtext/citation.go:46-63 | a comma joins two lists: the group denotes both, in order, exactly if both denote something and are within the bound together; otherwise nothing |
| CitationMeaning.RangeMeaning | internal/citationtext/citation.go:46-63 | a range a-b in bounds denotes a, a + 1, .., b, for every dash and any blanks |
| CitationMeaning.MarkMeaning | internal/citationtext/citation.go:17-44 | a marker is recognised exactly at a bracket expression of digits and separators that is not protected, escaped, an image, a link or a definition, nor a date |
| CitationMeaning.ScanMeaning | internal/citationtext/citation.go:32-70 | scanning finds exactly those markers, in order and without overlap, each with the indices and the kind of its body |
| Citation.IndicesBounded | internal/citationtext/citation.go:46-63 | a group never yields an index outside 1..99999 nor more than 128 |
| Citation.MarkBounded | internal/citationtext/citation.go:46-63 | the same for every marker and for its single markers |
| Citation.RenderScan | internal/citationtext/citation.go:32-70 | scanning loses nothing: the pieces concatenate to the text |
| Citation.SinglesScan | internal/citationtext/citation.go:141-156 | written single markers are read back as themselves in front of text that is no link |
| Citation.DedupInOrder | internal/citationtext/citation.go:141-156 | removing repeated indices keeps the order of first occurrence |
| Citation.MarkAgrees | internal/citationtext/citation.go:17-45 | recognising a marker looks no further than the next opening bracket |
| Citation.ExpansionAgrees | internal/citationtext/citation.go:128-164 | expanding later groups does not change the text up to the next marker |
| Citation.Rescan | internal/citationtext/citation.go:128-164 | with the protection carried along, scanning an expanded text gives exactly the kept pieces and the new single markers, for any choice of expanded groups; CitationRewrite.ExpansionProtection says what deriving protection again changes |
| CitationCluster.ExpansionStaysGuarded | internal/citationtext/valid_adjacent.go:13-50 | expansion keeps every cluster member backed and keeps a citation present |
| CitationCluster.GuardMeaning | internal/citationtext/valid_adjacent.go:13-50 | the guard by position: every single marker, and every group only blanks away from another marker, has readable indices that are all backed; and a citation is there exactly if there is such a marker |
| CitationCluster.ClustersFullyExpanded | internal/citationtext/citation.go:114-127 | on valid text no compound group is left in a cluster |
| CitationCluster.ClusterMeaning | internal/citationtext/citation.go:128-185 | the groups that are expanded, by position: compound, readable, wholly backed, and only blanks away from another marker |
| CitationCluster.ExpansionIsInPlace | internal/citationtext/citation.go:128-164 | the output is the cut of the input with each of those groups, in its place, replaced by the single markers of its distinct indices in order |
| ProtectedSpans.MaskLines | internal/citationtext/citation.go:242-279 | the line loop marks exactly the lines of code |
| LineMeaning.LinesMeaning | internal/citationtext/citation.go:245-251 | a text is its lines in order, cut right behind every newline |
| LineMeaning.LineMaskedMeaning | internal/citationtext/citation.go:242-279 | by position: a line is protected exactly if some line up to it opens a fence outside any other and no line strictly between closes it, with the same character, at least its length and nothing else; or if it stands in a run of indented lines outside lists behind a blank line, the start or fenced code |
| LineMeaning.LineMaskMeaning | internal/citationtext/citation.go:242-279 | the line scan protects all characters of exactly those lines |
| LineMeaning.ListStartMeaning | internal/citationtext/citation.go:21 | a list item starts with a bullet, or digits with a dot or parenthesis, and a blank |
| ProtectedSpans.MaskSpans | internal/citationtext/citation.go:280-302 | the loop over backtick runs marks code spans as specified |
| SpanMeaning.SpanMaskMeaning | internal/citationtext/citation.go:280-302 | by position: inline code is from an unescaped backtick run outside code lines and earlier spans to the end of the next whole run of the same length; nothing else is added |
| ProtectedSpans.FindDefinitions | internal/citationtext/citation.go:307-310 | the labels of the reference definitions |
| LinkMeaning.DefinedByMeaning | internal/citationtext/citation.go:20 | a line defines a label exactly if it is up to three blanks, a nonempty bracketed label and a colon |
| LinkMeaning.DefinitionsMeaning | internal/citationtext/citation.go:307-310 | the labels of a text are exactly those that its lines define |
| ProtectedSpans.MaskLinks | internal/citationtext/citation.go:311-353 | the bracket stack loop, with its jumps over destinations and its backward marks, writes the mask of the specified scan |
| LinkMeaning.MatchesMeaning | internal/citationtext/citation.go:311-353 | a closing bracket closes the nearest unclosed bracket in front of it; code, escaped brackets and destinations do not count |
| LinkMeaning.CloseParenMeaning | internal/citationtext/citation.go:325-340 | a destination ends where its parenthesis is closed, or with the text |
| LinkMeaning.ReferenceStartMeaning | internal/citationtext/citation.go:341-352 | the reference of a label starts at the bracket right in front of it on its line, or at its own |
| LinkMeaning.LinkMaskMeaning | internal/citationtext/citation.go:311-353 | by position: the bracket scan adds exactly the links, from their bracket to the end of their destination, and the references whose label is defined, from where they start |
| ProtectedSpans.Compute | internal/citationtext/citation.go:232-355 | the whole of protectedSpans, in place on one mask, protects exactly the code lines, the inline code, the links and the references of the text |
| ProtectMeaning.ProtectIsMeant | internal/citationtext/citation.go:232-355 | by position: a character is protected exactly if it stands in a line of code, in inline code, or in a link or reference |
| ProtectMeaning.OrdinaryIsFree | internal/citationtext/citation.go:232-355 | a text without backtick, tilde, indented line, destination or definition is protected nowhere |
| MarkdownLinks.DefinitionsEdit | internal/citationtext/citation.go:307-310 | replacing brackets that are followed by no colon adds and removes no reference definition |
| MarkdownStable.EditProtection | internal/citationtext/citation.go:232-355 | replacing one unprotected group by brackets: the protection derived from the new text is the old one in front, then what the new brackets add (all from where the reference of each defined one starts), then the old one behind |
| CitationRewrite.ExpansionProtection | internal/citationtext/citation.go:232-355 | deriving protection afresh from an expanded string gives exactly what Rewrite computes from the old cut and the old definitions; it never protects less than was carried along, and the same if and only if no written marker is the label of a reference definition |
| CitationHidden.HiddenAdjacent | internal/citationtext/valid_adjacent.go:13-50 | more protection keeps every remaining marker backed, leaves nothing new to expand, puts no group next to a marker, and leaves a citation exactly if some single marker is still read |
| CitationHidden.HiddenStrict | internal/citationtext/citation.go:187-205 | the same for the strict guard |
| CitationHidden.SomeLeftMeaning | internal/citationtext/valid_adjacent.go:13-50 | what it means that a marker is left, by position |
| CitationString.PreparedDraftStaysValidIff | internal/citationtext/valid_adjacent.go:13-50 | a string that passes ValidAdjacent passes it again after CanonicalizeAdjacent, for the same evidence, if and only if no citation is demanded or one is left that no written marker with a defined label protects |
| CitationString.NoLabelLeavesCitation | internal/citationtext/valid_adjacent.go:13-50 | one is left whenever no written marker is the label of a reference definition |
| CitationString.CanonicalizeKeepsDefinitions | internal/citationtext/citation.go:128-164 | rewriting never adds or removes a reference definition |
| CitationString.NoCompoundLeft | internal/citationtext/citation.go:114-164 | the output, read again, has no compound group in a cluster unless the growth bound returned the input |
| CitationString.CanonicalizeAdjacentIdempotent | internal/citationtext/citation.go:128-164 | canonicalising twice is canonicalising once, for every string |
| CitationCluster.ExpansionAddsOnlyBackedSingles | internal/citationtext/citation.go:136-156 | no text outside markers changes, and each new marker is a backed index of a group |
| ReferenceHazard.RewritingLosesCitations | internal/citationtext/citation.go:304-352 | a string that passes ValidAdjacent and whose canonical form does not |
| ReferenceHazard.StrictRewritingLosesEvidence | internal/citationtext/citation.go:304-352 | the same for Canonicalize and Valid |
| CitationText.ScanMarkers | internal/citationtext/citation.go:32-70 | the leftmost, non-overlapping matching loop on positions finds the markers of the specification, with their positions |
| CitationText.ReadIndices | internal/citationtext/citation.go:46-63 | the loop over the parts of a group, with its bounds before each expansion, collects exactly what the body denotes |
| CitationBoundary.Scan | internal/citationtext/citation.go:32-70 | on a string, its protected spans derived: exactly its markers, in order, each with what its body denotes |
| CitationText.CanonicalizeAdjacent | internal/citationtext/citation.go:128-185 | the builder loop over marker positions, with both size checks, is the specified expansion |
| CitationBoundary.CanonicalizeAdjacent | internal/citationtext/citation.go:128-185 | the same on a string, its protected spans derived |
| CitationText.ValidAdjacent | internal/citationtext/valid_adjacent.go:13-50 | the loop with early returns decides the specified validity |
| CitationBoundary.ValidAdjacent | internal/citationtext/valid_adjacent.go:13-50 | the same on a string, its protected spans derived |
| CitationStrict.Canonicalize | internal/citationtext/citation.go:76-112 | the strict loop is all or nothing: the specified expansion or an error |
| CitationBoundary.Canonicalize | internal/citationtext/citation.go:76-112 | the same on a string, its protected spans derived |
| CitationStrict.Valid | internal/citationtext/citation.go:187-221 | the strict guard's loop decides the specified validity |
| CitationStrict.StrictGuardMeaning | internal/citationtext/citation.go:187-221 | the strict guard by position: every marker that is no group above the window has readable indices that are all backed, and evidence is there exactly if there is one |
| CitationStrict.StrictExpansionIsInPlace | internal/citationtext/citation.go:76-112 | each readable group inside the window is replaced in its place by the single markers of its distinct indices; everything else stays |
| CitationBoundary.Valid | internal/citationtext/citation.go:187-221 | the same on a string, its protected spans derived |
| CitationString.CanonicalizeIsAtomic | internal/citationtext/citation.go:76-112 | a success is its own canonical form, for every string, and leaves no group inside the evidence window; what was valid stays valid if and only if no evidence is demanded or some is left that no written marker with a defined label protects |
| CitationString.CanonicalizeAgreesWithValid | internal/citationtext/citation.go:76-112 | if no written marker is the label of a definition, Valid judges the output as it judged the input |
| RefineRoute.LeadsIffModifies | internal/agent/refine_route.go:376-399 | the right-to-left table is true at i exactly when some chain of containers and the particle starting at i ends in an artifact noun of the original text |
| RefineRoute.DropIffModifier | internal/agent/refine_route.go:386-399 | a position is marked for deletion exactly when a container there leads to a noun, and that container is the one deleted |
| RefineRoute.WalkMeaning | internal/agent/refine_route.go:401-420 | the walk deletes a container it reaches exactly when such a chain starts there, keeps other containers whole and other characters singly |
| RefineRoute.WalkCoversInput | internal/agent/refine_route.go:401-420 | kept and deleted pieces are the whole text in order |
| RefineRoute.IdentityWithoutNouns | internal/agent/refine_route.go:343-367 | without an artifact noun the pass is the identity |
| RefineRoute.MatchContainers | internal/agent/refine_route.go:386-398 | the loop over the containers at one position finds the match length and the deletion flag |
| RefineRoute.FillOne | internal/agent/refine_route.go:376-399 | one turn of the right-to-left loop extends the three tables correctly |
| RefineRoute.Emit | internal/agent/refine_route.go:401-420 | the emitting loop writes the kept text of the walk |
| RefineRoute.StripModifierContainers | internal/agent/refine_route.go:368-421 | the whole pass over its tables writes the kept text of the walk |
| Setext.NormalizeSetextHeadings | internal/citationtext/setext.go:100-180 | the line loop, with its size bound, is the specified pass |
| Setext.PassKeepsInput | internal/citationtext/setext.go:100-180 | removing the inserted lines gives back the input |
| Setext.PassKeepsFences | internal/citationtext/setext.go:120-160 | fence state after the output equals fence state after the input |
| Setext.InsertionMeaning | internal/citationtext/setext.go:140-176 | each inserted line is blank, outside fences, directly before a rule that would otherwise turn the line before it into a heading |
| Setext.SettledMeaning | internal/citationtext/setext.go:140-176 | in a settled text no rule outside a fence follows a nonblank, non-indented, non-rule line within the line bound |
| Setext.SettledIsFixed | internal/citationtext/setext.go:100-180 | the pass changes nothing exactly on settled lines |
| Setext.NormalizedIsSettled | internal/citationtext/setext.go:100-180 | within the size bound the output is settled |
| Setext.NormalizeIdempotent | internal/citationtext/setext.go:100-180 | normalising twice is normalising once, for every input |

## Left out

- HTTP, SQL, logging, traces, metrics and prompt wording: replies, rows and verdicts are parameters; nudges are short constants.
- JSON: an abstract pair of predicates (is an object, is an error payload). Validity of tool arguments is that predicate.
- Real time: deadline guards and backoff fire or not arbitrarily; the notification lease uses an abstract clock whose readings may be late but never wrong; the time-based sweep of coverage state is not modelled.
- Message fields for run ids and truncated output, and the truncation disclosure they carry.
- Phases inside one tool batch (fetches before the rest, scope setters first): the store operations of a batch are taken in every order, which includes the ordered ones.
- Tool handlers other than Map, Reduce and draft preparation: their results are arbitrary texts.
- The analyses that the draft step reads from the transcript are a parameter.
- Lower-casing of characters outside ASCII is an arbitrary map that yields no closing bracket.
- Byte positions of citation markers: texts are sequences of Unicode scalar values, and byte lengths are computed where limits use them.
- Invalid UTF-8.
- Unsigned wrap-around of the handle counters: they cannot pass 128.
- Sweep queries of the notifier (order, batch of fifty): any runner may try any claim at any time.
- Reloading and re-authorising a task before redelivery, recipient checks and card building.
- Cancellation and panics inside Map workers.
- Submitting, polling and paging one batch task, and the channel names and types attached to its rows: a request has one reply.
- Normalisation of direct-message channel ids is an arbitrary function.
- Vocabulary lists of the refine route are parameters; classification itself and `rewriteResidueEmpty` are not modelled.
- Shape rules of submissions that carry no preview: a parameter. Unknown fields are ignored; result type, reply and target arrive trimmed.
- The database checks around the coverage gate's decision.
- Assigning citation indexes to messages, and caching of fetched messages.
- Fallback.Run: switch reports are exact only under the condition it states, because the code reads the count from the error chain.
- StreamClient.Stream: errors of validators and callbacks are plain errors, as they are at every call site.
- Submission.Submit: the wrapper that puts the draft state into the request context is not modelled; the state is an argument.
- CitationString.NoLabelLeavesCitation: needs that no written number is a reference label; PreparedDraftStaysValidIff is the exact statement.
- CitationString.CanonicalizeAgreesWithValid: needs the same, because a marker that is protected after the expansion is not judged; CanonicalizeIsAtomic is the statement for every string.
- SummaryDraft.AcceptedIsPrepared: a sufficient condition on the text handed over; AcceptedStaysAcceptableIff is the exact statement.
- Transcript.PlannerHistoryProtocol: needs a terminal tool in the policy, because the code skips sanitising without one.
