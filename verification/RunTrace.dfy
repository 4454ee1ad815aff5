/** The events of an agent run (agent/runner.go, RunWithHistoryOutcome): what may follow what,
    how a run may end, and what that means for its answer and its errors. */
module RunTrace {
  import opened GoText
  import opened Transcript
  import opened ReplayRecord
  import Protocols = MapReduceProtocol
  import opened Markdown
  import Draft = SummaryDraft
  import Submission

  const MAX_TOOL_ARGUMENT_REPAIRS := 2
  const MAX_DRAFT_NUDGES := 2

  datatype Policy = Policy(maxSteps: int, maxTokens: int, terminalTool: string)

  datatype PlannerTurn = PlannerTurn(failed: bool, content: string, toolCalls: seq<Call>, tokens: nat)

  datatype PrepareInput = PrepareInput(
    emptyArgs: bool, routeAllows: bool, ev: Draft.EvidenceWindow, analyses: seq<string>, writer: Draft.Writer)

  /** What a dispatched batch does: its results, the store operations of its concurrent
      calls in the order in which they happen, and what draft preparation meets. */
  datatype Batch = Batch(result: nat -> string, actions: seq<Protocols.Action>, prepare: PrepareInput)

  /** The n-th planner answer, the n-th batch, the n-th submission and what it is judged by. */
  datatype Environment = Environment(
    turn: nat -> PlannerTurn,
    batch: nat -> Batch,
    submission: nat -> Submission.Args,
    rules: nat -> Submission.Rules)

  datatype Config = Config(json: Json, lower: CaseMap, policy: Policy, reg: Registry, env: Environment)

  /** `open` is the state of the Map/Reduce gate when the event happens. */
  datatype Event =
    | Planned(prompt: seq<Message>)
    | DraftNudged
    | Repaired(overBudget: bool)
    | Attempted(open: bool)
    | GateFired
    | Judged(verdict: Option<Submission.Args>)
    | SentBack
    | Dispatched(actions: seq<Protocols.Action>, tokens: nat, open: bool)
    | Returned(results: seq<string>)
    | DraftPrepared(handle: string, text: string, ev: Draft.EvidenceWindow)
    | DraftRejected(reason: Draft.Reason)
    | StepEnded

  datatype Failure =
    | PlannerFailed
    | NonterminalAfterPreparation
    | SubmissionMissing
    | NonterminalAfterFinalization
    | InvalidArguments
    | DraftFailed(reason: Draft.Reason)
    | GateClosed
    | TerminalRequired
    | EmptyResponse
    | SubmissionRefused
    | MaxStepsExceeded

  /** An answer, with the accepted arguments when it was submitted. */
  datatype Outcome = Answer(reply: string, submitted: Option<Submission.Args>) | RunError(reason: Failure)

  function UserMessage(content: string): Message {
    Message(User, content, [], "", "")
  }

  function AssistantMessage(content: string, calls: seq<Call>): Message {
    Message(Assistant, content, calls, "", "")
  }

  predicate IsTerminalOnly(cfg: Config, calls: seq<Call>) {
    |calls| == 1 && cfg.policy.terminalTool != "" && calls[0].name == cfg.policy.terminalTool && cfg.policy.terminalTool in cfg.reg.terminals
  }

  predicate IsPrepareOnly(calls: seq<Call>) {
    |calls| == 1 && calls[0].name == PREPARE_SUMMARY_DRAFT
  }

  predicate MixesPreparation(calls: seq<Call>) {
    |calls| != 1 && exists i :: 0 <= i < |calls| && calls[i].name == PREPARE_SUMMARY_DRAFT
  }

  // ----- Counting -----

  datatype Kind = Plans | Nudges | Repairs | Batches | Submissions | Drafts | Steps

  predicate Is(e: Event, kind: Kind) {
    match kind
    case Plans => e.Planned?
    case Nudges => e.DraftNudged?
    case Repairs => e.Repaired?
    case Batches => e.Dispatched?
    case Submissions => e.Judged?
    case Drafts => e.DraftPrepared?
    case Steps => e.StepEnded?
  }

  function Count(events: seq<Event>, kind: Kind): (n: nat)
    ensures n <= |events|
  {
    if events == [] then 0 else Count(events[..|events| - 1], kind) + if Is(events[|events| - 1], kind) then 1 else 0
  }

  lemma {:induction false} CountNext(events: seq<Event>, e: Event, kind: Kind)
    ensures Count(events + [e], kind) == Count(events, kind) + if Is(e, kind) then 1 else 0
  {
    assert (events + [e])[..|events|] == events;
  }

  /** The steps a run has used: preparing the draft is not counted. */
  function StepsOf(events: seq<Event>): int {
    Count(events, Steps) - Count(events, Drafts)
  }

  predicate AtFinalStep(cfg: Config, events: seq<Event>) {
    StepsOf(events) >= cfg.policy.maxSteps - 1
  }

  /** The turn that was planned last. */
  function TurnOf(cfg: Config, events: seq<Event>): PlannerTurn {
    var n := Count(events, Plans);
    cfg.env.turn(if n > 0 then n - 1 else 0)
  }

  /** The batch that was dispatched last. */
  function BatchOf(cfg: Config, events: seq<Event>): Batch {
    var n := Count(events, Batches);
    cfg.env.batch(if n > 0 then n - 1 else 0)
  }

  function TokensOf(cfg: Config, events: seq<Event>): nat {
    if events == [] then 0
    else
      var past, e := events[..|events| - 1], events[|events| - 1];
      TokensOf(cfg, past) + TokensAt(cfg, past, e)
  }

  function TokensAt(cfg: Config, past: seq<Event>, e: Event): nat {
    match e
    case Planned(_) => var t := cfg.env.turn(Count(past, Plans)); if t.failed then 0 else t.tokens
    case Dispatched(_, tokens, _) => tokens
    case _ => 0
  }

  /** Handle and text of the run's draft; empty before there is one. */
  function DraftOf(events: seq<Event>): (string, string) {
    if events == [] then ("", "")
    else
      var e := events[|events| - 1];
      if e.DraftPrepared? then (e.handle, e.text) else DraftOf(events[..|events| - 1])
  }

  lemma {:induction false} DraftNext(events: seq<Event>, e: Event)
    ensures DraftOf(events + [e]) == if e.DraftPrepared? then (e.handle, e.text) else DraftOf(events)
  {
    assert (events + [e])[..|events|] == events;
  }

  predicate Drafted(events: seq<Event>) {
    DraftOf(events).0 != ""
  }

  // ----- What the transcript and the record hold -----

  function TerminalPair(turn: PlannerTurn, result: string): seq<Message> {
    [AssistantMessage(turn.content, turn.toolCalls)] + ToolMessages(turn.toolCalls, seq(|turn.toolCalls|, i => result))
  }

  /** What an event adds to the transcript. */
  function Shown(cfg: Config, past: seq<Event>, e: Event): seq<Message> {
    var turn := TurnOf(cfg, past);
    match e
    case DraftNudged => [UserMessage("submit the prepared draft")]
    case Repaired(_) => [UserMessage("repair the tool arguments")]
    case Returned(results) =>
      (if |results| == |turn.toolCalls| then [AssistantMessage(turn.content, turn.toolCalls)] + ToolMessages(turn.toolCalls, results) else [])
      + (if TokensOf(cfg, past) >= cfg.policy.maxTokens then [UserMessage("token budget reached")] else [])
    case SentBack =>
      if past == [] then []
      else if past[|past| - 1].GateFired? then
        (if turn.toolCalls != [] then TerminalPair(turn, "map/reduce incomplete") else []) + [UserMessage("finish map/reduce first")]
      else if turn.toolCalls != [] then TerminalPair(turn, "refused")
      else if cfg.policy.terminalTool != "" then [UserMessage("submit through the terminal tool")]
      else [AssistantMessage("", []), UserMessage("give the final answer")]
    case _ => []
  }

  /** The transcript after some events. */
  function TranscriptOf(cfg: Config, start: seq<Message>, events: seq<Event>): seq<Message> {
    if events == [] then start
    else
      var past, e := events[..|events| - 1], events[|events| - 1];
      TranscriptOf(cfg, start, past) + Shown(cfg, past, e)
  }

  /** What an event adds to the record: a round without control calls and their results. */
  function Stored(cfg: Config, past: seq<Event>, e: Event): seq<Message> {
    var turn := TurnOf(cfg, past);
    if e.Returned? && |e.results| == |turn.toolCalls|
    then DurableRound(cfg.reg, cfg.policy.terminalTool, AssistantMessage(turn.content, turn.toolCalls), e.results) else []
  }

  function RecordOf(cfg: Config, user: Message, events: seq<Event>): seq<Message> {
    if events == [] then [user]
    else
      var past, e := events[..|events| - 1], events[|events| - 1];
      RecordOf(cfg, user, past) + Stored(cfg, past, e)
  }

  // ----- What follows what -----

  /** What becomes of a turn. */
  datatype Decision = Stop(reason: Failure) | NudgeDraft | Repair | Attempt | UseTools

  function Decide(cfg: Config, events: seq<Event>): Decision {
    var turn := TurnOf(cfg, events);
    var terminalOnly := IsTerminalOnly(cfg, turn.toolCalls);
    var live := cfg.reg.hasPrepare && Drafted(events);
    var finalizationOnly := terminalOnly || (cfg.reg.hasPrepare && !Drafted(events) && IsPrepareOnly(turn.toolCalls));
    if turn.failed then Stop(PlannerFailed)
    else if live && !terminalOnly && turn.toolCalls != [] then Stop(NonterminalAfterPreparation)
    else if live && !terminalOnly && Count(events, Nudges) >= MAX_DRAFT_NUDGES then Stop(SubmissionMissing)
    else if live && !terminalOnly then NudgeDraft
    else if OverBudgetRepair(events) && !finalizationOnly then Stop(NonterminalAfterFinalization)
    else if !ValidArguments(cfg.json, turn.toolCalls) then
      if Count(events, Repairs) >= MAX_TOOL_ARGUMENT_REPAIRS || (TokensOf(cfg, events) >= cfg.policy.maxTokens && !finalizationOnly)
      then Stop(InvalidArguments) else Repair
    else if turn.toolCalls == [] || terminalOnly then Attempt
    else UseTools
  }

  /** The turn answers a repair that was asked for over the token budget. */
  predicate OverBudgetRepair(events: seq<Event>) {
    |events| >= 2 && events[|events| - 2] == Repaired(true)
  }

  /** The k-th submission against the draft of a live workspace; a legacy run has none. */
  function Submitted(cfg: Config, k: nat, handle: string, text: string): (r: Option<Submission.Args>)
    ensures r.Some? ==> r.value.Args?
  {
    Submission.SubmitSpec(cfg.lower, if cfg.reg.hasPrepare then Some(Submission.Draft(handle, text)) else None, cfg.env.submission(k), cfg.env.rules(k))
  }

  function Verdict(cfg: Config, events: seq<Event>): (r: Option<Submission.Args>)
    ensures r.Some? ==> r.value.Args?
  {
    Submitted(cfg, Count(events, Submissions), DraftOf(events).0, DraftOf(events).1)
  }

  /** A text that answers a run without a terminal policy. */
  predicate TextAnswers(cfg: Config, turn: PlannerTurn) {
    cfg.policy.terminalTool == "" && !Blank(turn.content)
  }

  /** The calls ask for a draft, in order and behind an open gate. */
  predicate AsksForDraft(cfg: Config, calls: seq<Call>, p: PrepareInput, open: bool) {
    IsPrepareOnly(calls) && cfg.reg.hasPrepare && open && p.emptyArgs && p.routeAllows && !(p.ev.hasEvidence && p.analyses == [])
  }

  /** The last batch did. */
  predicate WritesDraft(cfg: Config, events: seq<Event>) {
    && events != [] && events[|events| - 1].Dispatched?
    && AsksForDraft(cfg, TurnOf(cfg, events).toolCalls, BatchOf(cfg, events).prepare, events[|events| - 1].open)
  }

  ghost predicate DraftWritten(cfg: Config, events: seq<Event>, handle: string, text: string, ev: Draft.EvidenceWindow) {
    var p := BatchOf(cfg, events).prepare;
    && ev == p.ev && handle == "draft_" + p.writer.uuid && Draft.Prepared(cfg.lower, ev, text)
    && exists calls: nat :: Draft.Written(cfg.lower, p.ev, p.analyses, p.writer, calls, text)
  }

  ghost predicate DraftRefused(cfg: Config, events: seq<Event>, reason: Draft.Reason) {
    var p := BatchOf(cfg, events).prepare;
    exists calls: nat :: Draft.Rejected(cfg.lower, p.ev, p.analyses, p.writer, calls, reason)
  }

  /** The writer was asked n times, for a draft or in vain. */
  ghost predicate Asked(cfg: Config, p: PrepareInput, n: nat) {
    || (exists text :: Draft.Written(cfg.lower, p.ev, p.analyses, p.writer, n, text))
    || exists reason :: Draft.Rejected(cfg.lower, p.ev, p.analyses, p.writer, n, reason)
  }

  /** A batch costs the answers of the draft writer. */
  ghost predicate BatchTokens(cfg: Config, p: PrepareInput, calls: seq<Call>, open: bool, tokens: nat) {
    if AsksForDraft(cfg, calls, p, open)
    then exists n: nat :: Asked(cfg, p, n) && tokens == Draft.WriterTokens(p.writer, n) else tokens == 0
  }

  /** The event e may follow the events `past`. */
  ghost predicate Follows(cfg: Config, start: seq<Message>, past: seq<Event>, e: Event) {
    var turn := TurnOf(cfg, past);
    if past == [] then e == Planned(start) && cfg.policy.maxSteps > 0
    else
      match past[|past| - 1]
      case StepEnded => e == Planned(TranscriptOf(cfg, start, past)) && StepsOf(past) < cfg.policy.maxSteps
      case DraftNudged => e == Planned(TranscriptOf(cfg, start, past))
      case Repaired(_) => e == Planned(TranscriptOf(cfg, start, past))
      case Planned(_) =>
        (match Decide(cfg, past)
         case Stop(_) => false
         case NudgeDraft => e == DraftNudged
         case Repair => e == Repaired(TokensOf(cfg, past) >= cfg.policy.maxTokens)
         case Attempt => e.Attempted?
         case UseTools =>
           if MixesPreparation(turn.toolCalls) then e == Returned(seq(|turn.toolCalls|, i => "prepare_summary_draft must be called alone"))
           else
             var batch := cfg.env.batch(Count(past, Batches));
             e.Dispatched? && BatchTokens(cfg, batch.prepare, turn.toolCalls, e.open, e.tokens)
             && e.actions == if IsPrepareOnly(turn.toolCalls) then [] else batch.actions)
      case Attempted(open) =>
        if !open then e == GateFired
        else if turn.toolCalls != [] then e == Judged(Verdict(cfg, past))
        else e == SentBack && !TextAnswers(cfg, turn) && !AtFinalStep(cfg, past)
      case GateFired => e == SentBack && !AtFinalStep(cfg, past)
      case Judged(verdict) => e == SentBack && verdict.None? && !AtFinalStep(cfg, past)
      case SentBack => e == StepEnded
      case Dispatched(_, _, _) =>
        if e.DraftRejected? then WritesDraft(cfg, past) && DraftRefused(cfg, past, e.reason)
        else e == Returned(seq(|turn.toolCalls|, i requires 0 <= i => BatchOf(cfg, past).result(i)))
      case Returned(_) =>
        if |past| >= 2 && WritesDraft(cfg, past[..|past| - 1])
        then e.DraftPrepared? && DraftWritten(cfg, past, e.handle, e.text, e.ev) else e == StepEnded
      case DraftPrepared(_, _, _) => e == StepEnded
      case DraftRejected(_) => false
  }

  /** The run may end after these events with this outcome. */
  ghost predicate MayEnd(cfg: Config, events: seq<Event>, out: Outcome) {
    var turn := TurnOf(cfg, events);
    if events == [] then out == RunError(MaxStepsExceeded) && cfg.policy.maxSteps <= 0
    else
      match events[|events| - 1]
      case StepEnded => out == RunError(MaxStepsExceeded) && StepsOf(events) >= cfg.policy.maxSteps
      case Planned(_) => Decide(cfg, events).Stop? && out == RunError(Decide(cfg, events).reason)
      case Attempted(open) =>
        && open && turn.toolCalls == []
        && if TextAnswers(cfg, turn) then out == Answer(turn.content, None)
           else AtFinalStep(cfg, events) && out == RunError(if cfg.policy.terminalTool != "" then TerminalRequired else EmptyResponse)
      case GateFired => AtFinalStep(cfg, events) && out == RunError(GateClosed)
      case Judged(verdict) =>
        if verdict.Some? then verdict.value.Args? && out == Answer(verdict.value.reply, verdict)
        else AtFinalStep(cfg, events) && out == RunError(SubmissionRefused)
      case DraftRejected(reason) => out == RunError(DraftFailed(reason))
      case _ => false
  }

  ghost predicate Ordered(cfg: Config, start: seq<Message>, events: seq<Event>) {
    forall i :: 0 <= i < |events| ==> Follows(cfg, start, events[..i], events[i])
  }

  lemma {:induction false} OrderedNext(cfg: Config, start: seq<Message>, events: seq<Event>, e: Event)
    requires Ordered(cfg, start, events) && Follows(cfg, start, events, e)
    ensures Ordered(cfg, start, events + [e])
  {
    hide Follows;
    forall i | 0 <= i < |events + [e]| ensures Follows(cfg, start, (events + [e])[..i], (events + [e])[i]) {
      assert (events + [e])[..i] == events[..i];
      assert i == |events| ==> events[..i] == events;
    }
  }

  // ----- One transition at a time -----

  lemma {:induction false} MayPlan(cfg: Config, start: seq<Message>, past: seq<Event>)
    requires StepsOf(past) < cfg.policy.maxSteps && (past == [] || past[|past| - 1].StepEnded?)
    ensures Follows(cfg, start, past, Planned(TranscriptOf(cfg, start, past)))
  {
    hide Decide, TurnOf, BatchOf, Verdict, TokensOf;
  }

  lemma {:induction false} MayPlanAgain(cfg: Config, start: seq<Message>, past: seq<Event>)
    requires past != [] && (past[|past| - 1].DraftNudged? || past[|past| - 1].Repaired?)
    ensures Follows(cfg, start, past, Planned(TranscriptOf(cfg, start, past)))
  {
    hide Decide, TurnOf, BatchOf, Verdict, TokensOf, TranscriptOf;
  }

  /** What follows a plan. */
  lemma {:induction false} MayGoOn(cfg: Config, start: seq<Message>, past: seq<Event>, open: bool)
    requires past != [] && past[|past| - 1].Planned?
    ensures Decide(cfg, past) == NudgeDraft ==> Follows(cfg, start, past, DraftNudged)
    ensures Decide(cfg, past) == Repair ==> Follows(cfg, start, past, Repaired(TokensOf(cfg, past) >= cfg.policy.maxTokens))
    ensures Decide(cfg, past) == Attempt ==> Follows(cfg, start, past, Attempted(open))
  {
    hide Decide, TurnOf, BatchOf, Verdict, TokensOf, TranscriptOf;
  }

  lemma {:induction false} MayReturnAlone(cfg: Config, start: seq<Message>, past: seq<Event>)
    requires past != [] && past[|past| - 1].Planned? && Decide(cfg, past) == UseTools && MixesPreparation(TurnOf(cfg, past).toolCalls)
    ensures Follows(cfg, start, past, Returned(seq(|TurnOf(cfg, past).toolCalls|, i => "prepare_summary_draft must be called alone")))
  {
    hide Decide, TurnOf, BatchOf, Verdict, TokensOf, TranscriptOf;
  }

  lemma {:induction false} MayDispatch(cfg: Config, start: seq<Message>, past: seq<Event>, actions: seq<Protocols.Action>, tokens: nat, open: bool)
    requires past != [] && past[|past| - 1].Planned? && Decide(cfg, past) == UseTools && !MixesPreparation(TurnOf(cfg, past).toolCalls)
    requires BatchTokens(cfg, cfg.env.batch(Count(past, Batches)).prepare, TurnOf(cfg, past).toolCalls, open, tokens)
    requires actions == if IsPrepareOnly(TurnOf(cfg, past).toolCalls) then [] else cfg.env.batch(Count(past, Batches)).actions
    ensures Follows(cfg, start, past, Dispatched(actions, tokens, open))
  {
    hide Decide, TurnOf, BatchOf, Verdict, TokensOf, TranscriptOf, BatchTokens;
  }

  lemma {:induction false} MayReturn(cfg: Config, start: seq<Message>, past: seq<Event>)
    requires past != [] && past[|past| - 1].Dispatched?
    ensures Follows(cfg, start, past, Returned(seq(|TurnOf(cfg, past).toolCalls|, i requires 0 <= i => BatchOf(cfg, past).result(i))))
  {
    hide Decide, TurnOf, BatchOf, Verdict, TokensOf, TranscriptOf, BatchTokens;
  }

  lemma {:induction false} MayReject(cfg: Config, start: seq<Message>, past: seq<Event>, reason: Draft.Reason)
    requires WritesDraft(cfg, past) && DraftRefused(cfg, past, reason)
    ensures Follows(cfg, start, past, DraftRejected(reason))
  {
    hide Decide, TurnOf, BatchOf, Verdict, TokensOf, TranscriptOf, BatchTokens, DraftRefused;
  }

  lemma {:induction false} MayPrepare(cfg: Config, start: seq<Message>, past: seq<Event>, handle: string, text: string, ev: Draft.EvidenceWindow)
    requires |past| >= 2 && past[|past| - 1].Returned? && WritesDraft(cfg, past[..|past| - 1]) && DraftWritten(cfg, past, handle, text, ev)
    ensures Follows(cfg, start, past, DraftPrepared(handle, text, ev))
  {
    hide Decide, TurnOf, BatchOf, Verdict, TokensOf, TranscriptOf, BatchTokens, WritesDraft, DraftWritten;
  }

  lemma {:induction false} MayEndStep(cfg: Config, start: seq<Message>, past: seq<Event>)
    requires past != []
    requires || past[|past| - 1].SentBack? || past[|past| - 1].DraftPrepared?
             || (past[|past| - 1].Returned? && !(|past| >= 2 && WritesDraft(cfg, past[..|past| - 1])))
    ensures Follows(cfg, start, past, StepEnded)
  {
    hide Decide, TurnOf, BatchOf, Verdict, TokensOf, TranscriptOf, BatchTokens, WritesDraft;
  }

  /** What follows an attempt to answer. */
  lemma {:induction false} MayBeJudged(cfg: Config, start: seq<Message>, past: seq<Event>)
    requires past != []
    ensures past[|past| - 1] == Attempted(false) ==> Follows(cfg, start, past, GateFired)
    ensures past[|past| - 1] == Attempted(true) && TurnOf(cfg, past).toolCalls != [] ==> Follows(cfg, start, past, Judged(Verdict(cfg, past)))
    ensures past[|past| - 1] == Attempted(true) && TurnOf(cfg, past).toolCalls == [] && !TextAnswers(cfg, TurnOf(cfg, past)) && !AtFinalStep(cfg, past) ==>
              Follows(cfg, start, past, SentBack)
    ensures (past[|past| - 1] == GateFired || past[|past| - 1] == Judged(None)) && !AtFinalStep(cfg, past) ==> Follows(cfg, start, past, SentBack)
  {
    hide Decide, TurnOf, BatchOf, Verdict, TokensOf, TranscriptOf, BatchTokens, TextAnswers, AtFinalStep;
  }

  // ----- What that means -----

  /** The attempt at i is one the run must accept: the gate is open, and its submission is
      accepted, or, without a terminal policy, its text is not blank. */
  predicate Acceptable(cfg: Config, events: seq<Event>, i: nat) {
    i < |events| && events[i].Attempted? && events[i].open
    && if TurnOf(cfg, events[..i + 1]).toolCalls != [] then Verdict(cfg, events[..i + 1]).Some? else TextAnswers(cfg, TurnOf(cfg, events[..i + 1]))
  }

  /** The answer of an acceptable attempt: that submission's reply or that turn's text. */
  function AnswerAt(cfg: Config, events: seq<Event>, i: nat): Outcome
    requires Acceptable(cfg, events, i)
  {
    var upTo := events[..i + 1];
    if TurnOf(cfg, upTo).toolCalls != [] then Answer(Verdict(cfg, upTo).value.reply, Verdict(cfg, upTo)) else Answer(TurnOf(cfg, upTo).content, None)
  }

  predicate LastAttempt(events: seq<Event>, i: nat) {
    i < |events| && events[i].Attempted? && forall k :: i < k < |events| ==> !events[k].Attempted?
  }

  lemma {:induction false} FollowsAt(cfg: Config, start: seq<Message>, events: seq<Event>, i: nat)
    requires Ordered(cfg, start, events) && i < |events|
    ensures Follows(cfg, start, events[..i], events[i])
    ensures i > 0 ==> events[..i] != [] && events[..i][|events[..i]| - 1] == events[i - 1]
  {
  }

  lemma {:induction false} NothingBehindAccepted(cfg: Config, start: seq<Message>, past: seq<Event>, e: Event)
    requires past != [] && past[|past| - 1].Judged? && past[|past| - 1].verdict.Some?
    ensures !Follows(cfg, start, past, e)
  {
  }

  /** What follows an attempt. */
  lemma {:induction false} BehindAttempt(cfg: Config, start: seq<Message>, past: seq<Event>, e: Event)
    requires past != [] && past[|past| - 1].Attempted? && Follows(cfg, start, past, e)
    ensures if !past[|past| - 1].open then e == GateFired
            else if TurnOf(cfg, past).toolCalls != [] then e == Judged(Verdict(cfg, past))
            else e == SentBack && !TextAnswers(cfg, TurnOf(cfg, past))
  {
    hide Verdict, TurnOf, BatchOf, TextAnswers, TokensOf, Decide, TranscriptOf;
  }

  /** A verdict comes right behind an attempt through the open gate, a fired gate right behind
      one through a closed gate. */
  lemma {:induction false} InFrontOfVerdict(cfg: Config, start: seq<Message>, past: seq<Event>, e: Event)
    requires Follows(cfg, start, past, e) && (e.GateFired? || e.Judged?)
    ensures past != [] && past[|past| - 1] == Attempted(e.Judged?)
    ensures e.Judged? ==> TurnOf(cfg, past).toolCalls != [] && e.verdict == Verdict(cfg, past)
  {
    hide Verdict, TurnOf, BatchOf, TextAnswers, TokensOf, Decide, TranscriptOf;
  }

  lemma {:induction false} JudgedAfter(cfg: Config, start: seq<Message>, events: seq<Event>, i: nat)
    requires Ordered(cfg, start, events) && i + 1 < |events| && Acceptable(cfg, events, i)
    ensures events[i + 1] == Judged(Verdict(cfg, events[..i + 1])) && Verdict(cfg, events[..i + 1]).Some?
    ensures TurnOf(cfg, events[..i + 1]).toolCalls != [] && |events| == i + 2
  {
    hide Verdict, TurnOf, TextAnswers, Follows, Ordered;
    FollowsAt(cfg, start, events, i + 1);
    BehindAttempt(cfg, start, events[..i + 1], events[i + 1]);
    if i + 2 < |events| {
      LastOf(events, i + 2);
      NothingBehindAccepted(cfg, start, events[..i + 2], events[i + 2]);
      FollowsAt(cfg, start, events, i + 2);
    }
  }

  lemma {:induction false} LastOf(events: seq<Event>, i: nat)
    requires 0 < i <= |events|
    ensures events[..i] != [] && events[..i][|events[..i]| - 1] == events[i - 1]
  {
  }

  /** An acceptable attempt is the last one and ends the run with its answer. */
  lemma {:induction false} AcceptableAnswers(cfg: Config, start: seq<Message>, events: seq<Event>, out: Outcome, i: nat)
    requires Ordered(cfg, start, events) && MayEnd(cfg, events, out) && Acceptable(cfg, events, i)
    ensures LastAttempt(events, i) && out == AnswerAt(cfg, events, i)
  {
    hide Verdict, TurnOf, TextAnswers, Follows, Ordered, Decide, TokensOf;
    if i + 1 < |events| {
      JudgedAfter(cfg, start, events, i);
      assert events[|events| - 1] == events[i + 1];
    } else {
      assert events[..i + 1] == events;
    }
  }

  /** An answer is that of an acceptable attempt. */
  lemma {:induction false} AnswerWasAcceptable(cfg: Config, start: seq<Message>, events: seq<Event>, out: Outcome) returns (i: nat)
    requires Ordered(cfg, start, events) && MayEnd(cfg, events, out) && out.Answer?
    ensures Acceptable(cfg, events, i)
  {
    hide TurnOf, TextAnswers, Verdict, Follows, Ordered, Decide, TokensOf;
    var n := |events|;
    if events[n - 1].Attempted? {
      i := n - 1;
      assert events[..i + 1] == events;
    } else {
      FollowsAt(cfg, start, events, n - 1);
      InFrontOfVerdict(cfg, start, events[..n - 1], events[n - 1]);
      i := n - 2;
    }
  }

  /** The run answers if and only if its last attempt was acceptable, and with its answer. */
  lemma {:induction false} AnswersIff(cfg: Config, start: seq<Message>, events: seq<Event>, out: Outcome)
    requires Ordered(cfg, start, events) && MayEnd(cfg, events, out)
    ensures out.Answer? <==> exists i: nat :: LastAttempt(events, i) && Acceptable(cfg, events, i)
    ensures forall i: nat :: Acceptable(cfg, events, i) ==> LastAttempt(events, i) && out == AnswerAt(cfg, events, i)
  {
    hide Acceptable, LastAttempt, AnswerAt, Ordered, MayEnd;
    forall i: nat | Acceptable(cfg, events, i) ensures LastAttempt(events, i) && out == AnswerAt(cfg, events, i) {
      AcceptableAnswers(cfg, start, events, out, i);
    }
    if out.Answer? {
      var i := AnswerWasAcceptable(cfg, start, events, out);
      assert LastAttempt(events, i);
    }
    if i: nat :| LastAttempt(events, i) && Acceptable(cfg, events, i) {
      AnswerIsAnswer(cfg, events, i);
    }
  }

  lemma {:induction false} AnswerIsAnswer(cfg: Config, events: seq<Event>, i: nat)
    requires Acceptable(cfg, events, i)
    ensures AnswerAt(cfg, events, i).Answer?
  {
    hide Verdict, TurnOf, TextAnswers;
  }

  /** Why a run failed. */
  ghost predicate Cause(cfg: Config, reason: Failure, events: seq<Event>) {
    var turn := TurnOf(cfg, events);
    var planned := events != [] && events[|events| - 1].Planned?;
    match reason
    case PlannerFailed => planned && turn.failed
    case NonterminalAfterPreparation => planned && Drafted(events) && turn.toolCalls != [] && !IsTerminalOnly(cfg, turn.toolCalls)
    case SubmissionMissing => planned && Drafted(events) && turn.toolCalls == [] && Count(events, Nudges) >= MAX_DRAFT_NUDGES
    case NonterminalAfterFinalization =>
      planned && OverBudgetRepair(events) && !IsTerminalOnly(cfg, turn.toolCalls)
      && !(cfg.reg.hasPrepare && !Drafted(events) && IsPrepareOnly(turn.toolCalls))
    case InvalidArguments =>
      && planned && !ValidArguments(cfg.json, turn.toolCalls)
      && (Count(events, Repairs) >= MAX_TOOL_ARGUMENT_REPAIRS || TokensOf(cfg, events) >= cfg.policy.maxTokens)
    case DraftFailed(why) => events != [] && events[|events| - 1] == DraftRejected(why)
    case GateClosed => AtFinalStep(cfg, events) && |events| >= 2 && events[|events| - 2..] == [Attempted(false), GateFired]
    case TerminalRequired => AtFinalStep(cfg, events) && events != [] && events[|events| - 1] == Attempted(true) && cfg.policy.terminalTool != "" && turn.toolCalls == []
    case EmptyResponse => AtFinalStep(cfg, events) && events != [] && events[|events| - 1] == Attempted(true) && turn.toolCalls == [] && Blank(turn.content)
    case SubmissionRefused => AtFinalStep(cfg, events) && |events| >= 2 && events[|events| - 2..] == [Attempted(true), Judged(None)]
    case MaxStepsExceeded =>
      StepsOf(events) >= cfg.policy.maxSteps && (events == [] || events[|events| - 1].StepEnded?)
  }

  lemma {:induction false} StopCauses(cfg: Config, events: seq<Event>)
    requires events != [] && events[|events| - 1].Planned? && Decide(cfg, events).Stop?
    ensures Cause(cfg, Decide(cfg, events).reason, events)
  {
    hide TurnOf, TokensOf, Count, DraftOf;
  }

  lemma {:induction false} VerdictCauses(cfg: Config, start: seq<Message>, events: seq<Event>, out: Outcome)
    requires Ordered(cfg, start, events) && MayEnd(cfg, events, out) && out.RunError?
    requires events != [] && (events[|events| - 1].GateFired? || events[|events| - 1].Judged?)
    ensures Cause(cfg, out.reason, events)
  {
    hide TurnOf, TokensOf, Count, DraftOf, Follows, Ordered, Verdict, Decide;
    var n := |events|;
    FollowsAt(cfg, start, events, n - 1);
    InFrontOfVerdict(cfg, start, events[..n - 1], events[n - 1]);
    assert events[n - 2..] == [events[n - 2], events[n - 1]];
  }

  /** Every error has its cause, and no attempt before it was acceptable. */
  lemma {:induction false} ErrorsHaveCauses(cfg: Config, start: seq<Message>, events: seq<Event>, out: Outcome)
    requires Ordered(cfg, start, events) && MayEnd(cfg, events, out) && out.RunError?
    ensures Cause(cfg, out.reason, events)
    ensures forall i: nat :: !Acceptable(cfg, events, i)
  {
    hide Verdict, TokensOf, Acceptable, AnswerAt, TurnOf, Count, DraftOf, Ordered, Decide;
    forall i: nat ensures !Acceptable(cfg, events, i) {
      if Acceptable(cfg, events, i) {
        AnswerIsAnswer(cfg, events, i);
        AcceptableAnswers(cfg, start, events, out, i);
      }
    }
    if events != [] && (events[|events| - 1].GateFired? || events[|events| - 1].Judged?) {
      VerdictCauses(cfg, start, events, out);
    } else if events != [] && events[|events| - 1].Planned? {
      StopCauses(cfg, events);
    }
  }
}
