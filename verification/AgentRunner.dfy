/** The planner loop (agent/runner.go, RunWithHistoryOutcome): acceptance gates, bounded
    repairs, the draft step, and what it stores. The model, the tools and their
    interleavings are an arbitrary environment. */
module AgentRunner {
  import opened GoText
  import opened Transcript
  import opened ReplayRecord
  import opened HandleStore
  import Protocols = MapReduceProtocol
  import opened Markdown
  import Draft = SummaryDraft
  import Submission
  import opened RunTrace

  /** The store operations a run's events stand for, step by step. */
  function ActsOf(events: seq<Event>): seq<Protocols.Action> {
    if events == [] then []
    else
      ActsOf(events[..|events| - 1])
      + match events[|events| - 1]
        case Dispatched(actions, _, _) => WithinStep(actions)
        case StepEnded => [Protocols.NextStep]
        case _ => []
  }

  /** The operations themselves: only the loop ends a step. */
  function WithinStep(actions: seq<Protocols.Action>): seq<Protocols.Action> {
    if actions == [] then []
    else
      var last := actions[|actions| - 1];
      WithinStep(actions[..|actions| - 1]) + if last == Protocols.NextStep then [] else [last]
  }

  /** The variables of the loop. */
  datatype Locals = Locals(
    step: int,
    msgs: seq<Message>,
    newMsgs: seq<Message>,
    totalTokens: nat,
    argumentRepairs: nat,
    draftNudges: nat,
    plannerCalls: nat,
    batches: nat,
    terminals: nat,
    events: seq<Event>)

  // ----- What the loop keeps -----

  ghost predicate IdsInEnvironment(cfg: Config) {
    forall n :: IdsPresent(cfg.env.turn(n).toolCalls)
  }

  /** Under a terminal policy every prompt is a protocol-correct transcript. */
  ghost predicate PromptsExpected(cfg: Config) {
    cfg.policy.terminalTool != "" && cfg.json.isObject(COMPACTED_REDUCE_ARGS) && IdsInEnvironment(cfg)
  }

  ghost predicate PromptsCorrect(cfg: Config, events: seq<Event>) {
    forall i :: 0 <= i < |events| && events[i].Planned? ==> Protocol(cfg.json, events[i].prompt)
  }

  ghost predicate Prompts(cfg: Config, l: Locals) {
    PromptsExpected(cfg) ==> Protocol(cfg.json, l.msgs) && PromptsCorrect(cfg, l.events)
  }

  ghost predicate RecordExpected(cfg: Config) {
    IdsInEnvironment(cfg) && OnlyTerminal(cfg.reg, cfg.policy.terminalTool)
  }

  /** A message stored by a round of the run: never a nudge, never a rejected answer. */
  ghost predicate FromRound(cfg: Config, e: Message) {
    exists n :: InRound(cfg.reg, cfg.policy.terminalTool, Answered(cfg, n), e)
  }

  function Answered(cfg: Config, n: nat): Message {
    AssistantMessage(cfg.env.turn(n).content, cfg.env.turn(n).toolCalls)
  }

  ghost predicate Record(cfg: Config, newMsgs: seq<Message>) {
    && newMsgs != [] && newMsgs[0].role == User
    && (forall i :: 1 <= i < |newMsgs| ==> FromRound(cfg, newMsgs[i]))
    && CleanRecord(cfg, newMsgs)
  }

  ghost predicate CleanRecord(cfg: Config, newMsgs: seq<Message>) {
    RecordExpected(cfg) ==> Clean(cfg.json, cfg.policy.terminalTool, newMsgs)
  }

  /** How an answer came about: as the reply of a submission that the handler accepted with
      this draft, or, without a terminal policy, as the nonblank text of a turn without calls. */
  ghost predicate Delivered(cfg: Config, out: Outcome, handle: string, text: string) {
    && out.Answer?
    && (out.submitted.Some? ==>
          && cfg.policy.terminalTool in cfg.reg.terminals
          && exists k :: Submitted(cfg, k, handle, text) == out.submitted && out.reply == cfg.env.submission(k).reply)
    && (out.submitted.None? ==>
          cfg.policy.terminalTool == "" && !Blank(out.reply) && exists n :: Answered(cfg, n) == AssistantMessage(out.reply, []))
  }

  /** What an accepted preview of a live run is: the text of the draft that the run prepared
      before, accepted by the citation guard. */
  ghost predicate SubmitsDraft(cfg: Config, out: Outcome, events: seq<Event>, text: string) {
    out.Answer? && (out.submitted.Some? ==>
      var a := out.submitted.value;
      && a.Args?
      && (cfg.reg.hasPrepare && a.preview.Some? ==>
            a.preview.value.content == Some(text) && exists i :: 0 <= i < |events| && events[i].DraftPrepared? && events[i].text == text)
      && (Submission.IsPreview(a) ==>
            a.preview.Some? && a.preview.value.content.Some?
            && exists k :: Draft.GuardAccepts(cfg.lower, cfg.env.rules(k).ev, a.preview.value.content.value)))
  }

  /** Once a draft is prepared nothing but planning and submission happens: no batch is
      dispatched or returns, the completeness gate does not fire, no other draft is prepared. */
  ghost predicate Frozen(events: seq<Event>) {
    forall i, k :: 0 <= i < k < |events| && events[i].DraftPrepared? ==> Calm(events[k])
  }

  predicate Calm(e: Event) {
    !e.Dispatched? && !e.Returned? && !e.GateFired? && !e.DraftPrepared? && !e.DraftRejected?
  }

  /** The draft as the events tell it: the run's one text, prepared from the evidence that
      the event names. */
  ghost predicate DraftTold(cfg: Config, events: seq<Event>, handle: string, text: string) {
    && (forall i :: 0 <= i < |events| && events[i].DraftPrepared? ==>
          handle != "" && events[i].text == text && Draft.Prepared(cfg.lower, events[i].ev, text))
    && (handle != "" ==> exists i :: 0 <= i < |events| && events[i].DraftPrepared?)
    && DraftOf(events) == (handle, text)
  }

  ghost predicate DraftInv(cfg: Config, l: Locals, handle: string, text: string, store: Store) {
    && Frozen(l.events) && DraftTold(cfg, l.events, handle, text)
    && (handle != "" ==> Protocols.GatePasses(store))
  }

  /** `tr` is the Map/Reduce protocol run that `acts` describe, and the store is where it
      ends. */
  ghost predicate Traced(tr: seq<Protocols.Run>, acts: seq<Protocols.Action>, store: Store, log: seq<Entry>) {
    Protocols.Behaviour(tr, acts) && tr[|acts|].store == store && tr[|acts|].log == log
  }

  lemma {:induction false} TraceGrows(tr: seq<Protocols.Run>, acts: seq<Protocols.Action>, a: Protocols.Action, r: Protocols.Run)
    requires Protocols.Behaviour(tr, acts) && Protocols.Next(tr[|acts|], a, r)
    ensures Protocols.Behaviour(tr + [r], acts + [a]) && (tr + [r])[|acts + [a]|] == r
  {
    var tr', acts' := tr + [r], acts + [a];
    forall i | 0 <= i < |acts'| ensures Protocols.Next(tr'[i], acts'[i], tr'[i + 1]) {
      if i < |acts| { assert Protocols.Next(tr[i], acts[i], tr[i + 1]); }
    }
  }

  /** Planner calls so far: one a step, one more for the draft step that is not counted,
      and the bounded repairs. */
  predicate Budget(l: Locals, handle: string) {
    && l.argumentRepairs <= MAX_TOOL_ARGUMENT_REPAIRS && l.draftNudges <= MAX_DRAFT_NUDGES
    && l.plannerCalls == l.step + (if handle != "" then 1 else 0) + l.argumentRepairs + l.draftNudges
  }

  /** What a run starts from. */
  datatype Start = Start(msgs: seq<Message>, user: Message)

  /** The variables of the loop are what the events say. */
  ghost predicate Logged(cfg: Config, s: Start, l: Locals) {
    && Ordered(cfg, s.msgs, l.events)
    && l.step == StepsOf(l.events) && l.plannerCalls == Count(l.events, Plans) && l.batches == Count(l.events, Batches)
    && l.argumentRepairs == Count(l.events, Repairs) && l.draftNudges == Count(l.events, Nudges) && l.terminals == Count(l.events, Submissions)
    && l.totalTokens == TokensOf(cfg, l.events)
    && l.msgs == TranscriptOf(cfg, s.msgs, l.events) && l.newMsgs == RecordOf(cfg, s.user, l.events)
  }

  /** What an event does to them. */
  function After(cfg: Config, l: Locals, e: Event): Locals {
    Locals(
      l.step + (if e.StepEnded? then 1 else if e.DraftPrepared? then -1 else 0),
      l.msgs + Shown(cfg, l.events, e),
      l.newMsgs + Stored(cfg, l.events, e),
      l.totalTokens + TokensAt(cfg, l.events, e),
      l.argumentRepairs + (if e.Repaired? then 1 else 0),
      l.draftNudges + (if e.DraftNudged? then 1 else 0),
      l.plannerCalls + (if e.Planned? then 1 else 0),
      l.batches + (if e.Dispatched? then 1 else 0),
      l.terminals + (if e.Judged? then 1 else 0),
      l.events + [e])
  }

  lemma {:induction false} LogStep(cfg: Config, s: Start, l: Locals, e: Event)
    requires Logged(cfg, s, l) && Follows(cfg, s.msgs, l.events, e)
    ensures Logged(cfg, s, After(cfg, l, e))
  {
    hide Follows, Ordered, Shown, Stored, TokensAt, Count;
    OrderedNext(cfg, s.msgs, l.events, e);
    CountNext(l.events, e, Plans);
    CountNext(l.events, e, Nudges);
    CountNext(l.events, e, Repairs);
    CountNext(l.events, e, Batches);
    CountNext(l.events, e, Submissions);
    CountNext(l.events, e, Drafts);
    CountNext(l.events, e, Steps);
    assert (l.events + [e])[..|l.events|] == l.events;
  }

  /** An event that tells the state of the gate. */
  predicate Gated(e: Event) {
    e.Attempted? || e.Dispatched?
  }

  ghost predicate GateTold(tr: seq<Protocols.Run>, n: nat, open: bool) {
    n < |tr| && (open <==> Protocols.GatePasses(tr[n].store))
  }

  /** The gate was as the events tell it, in the store of that moment. */
  ghost predicate GatesTold(tr: seq<Protocols.Run>, events: seq<Event>) {
    forall i :: 0 <= i < |events| && Gated(events[i]) ==> GateTold(tr, |ActsOf(events[..i])|, events[i].open)
  }

  lemma {:induction false} GatesNext(tr: seq<Protocols.Run>, events: seq<Event>, e: Event)
    requires GatesTold(tr, events) && (Gated(e) ==> GateTold(tr, |ActsOf(events)|, e.open))
    ensures GatesTold(tr, events + [e])
  {
    hide ActsOf, GateTold;
    var all := events + [e];
    forall i | 0 <= i < |all| && Gated(all[i]) ensures GateTold(tr, |ActsOf(all[..i])|, all[i].open) {
      assert all[..i] == events[..i];
      assert i == |events| ==> events[..i] == events;
    }
  }

  lemma {:induction false} GatesGrow(tr: seq<Protocols.Run>, tr': seq<Protocols.Run>, events: seq<Event>)
    requires GatesTold(tr, events) && tr <= tr'
    ensures GatesTold(tr', events)
  {
    hide ActsOf, Protocols.GatePasses;
    forall i | 0 <= i < |events| && Gated(events[i]) ensures GateTold(tr', |ActsOf(events[..i])|, events[i].open) {
      var n := |ActsOf(events[..i])|;
      assert GateTold(tr, n, events[i].open) && tr'[n] == tr[n];
    }
  }

  /** What every part of the run keeps. */
  ghost predicate Core(cfg: Config, s: Start, l: Locals, handle: string, text: string, store: Store, tr: seq<Protocols.Run>) {
    Prompts(cfg, l) && Record(cfg, l.newMsgs) && DraftInv(cfg, l, handle, text, store) && Logged(cfg, s, l) && GatesTold(tr, l.events)
  }

  /** One more event. */
  lemma {:induction false} Note(cfg: Config, s: Start, l: Locals, handle: string, text: string, store: Store, tr: seq<Protocols.Run>, e: Event)
    requires Core(cfg, s, l, handle, text, store, tr) && Follows(cfg, s.msgs, l.events, e)
    requires !e.DraftPrepared? && (handle == "" || Calm(e))
    requires Gated(e) ==> GateTold(tr, |ActsOf(l.events)|, e.open)
    requires Prompts(cfg, l.(msgs := l.msgs + Shown(cfg, l.events, e))) && Record(cfg, l.newMsgs + Stored(cfg, l.events, e))
    ensures Core(cfg, s, After(cfg, l, e), handle, text, store, tr)
    ensures ActsOf(l.events + [e]) == ActsOf(l.events) + if e.Dispatched? then WithinStep(e.actions) else if e.StepEnded? then [Protocols.NextStep] else []
  {
    hide Follows, Logged, Record, GatesTold, Shown, Stored, TokensAt, Prompts, DraftInv, Calm, GateTold, ActsOf;
    LogStep(cfg, s, l, e);
    GatesNext(tr, l.events, e);
    if e.Planned? {
      PlannedPrompt(cfg, s, l, e);
    }
    AppendEvent(cfg, l.(msgs := l.msgs + Shown(cfg, l.events, e)), e);
    DraftInvEvent(cfg, l, handle, text, store, e);
    SameParts(cfg, l.(msgs := l.msgs + Shown(cfg, l.events, e), events := l.events + [e]), After(cfg, l, e));
    SameDraft(cfg, l.(events := l.events + [e]), After(cfg, l, e), handle, text, store);
  }

  lemma {:induction false} SameParts(cfg: Config, l: Locals, l': Locals)
    requires l.msgs == l'.msgs && l.events == l'.events
    ensures Prompts(cfg, l) == Prompts(cfg, l')
  {
  }

  lemma {:induction false} SameDraft(cfg: Config, l: Locals, l': Locals, handle: string, text: string, store: Store)
    requires l.events == l'.events
    ensures DraftInv(cfg, l, handle, text, store) == DraftInv(cfg, l', handle, text, store)
  {
    hide Frozen, DraftTold, Protocols.GatePasses;
  }

  lemma {:induction false} PlannedPrompt(cfg: Config, s: Start, l: Locals, e: Event)
    requires Logged(cfg, s, l) && Follows(cfg, s.msgs, l.events, e) && e.Planned?
    ensures e.prompt == l.msgs == l.msgs + Shown(cfg, l.events, e)
  {
    hide Ordered, Decide, TokensOf, TurnOf, BatchOf, Verdict, StepsOf, Count, RecordOf, WritesDraft, BatchTokens, TextAnswers, AtFinalStep;
  }

  // ----- Appending to the transcript -----

  lemma {:induction false} AppendPlain(cfg: Config, l: Locals, m: Message)
    requires Prompts(cfg, l) && m.role != Tool && !IsBatch(m)
    ensures Prompts(cfg, l.(msgs := l.msgs + [m]))
  {
    if PromptsExpected(cfg) {
      assert [m][1..] == [];
      ProtocolAppend(cfg.json, l.msgs, [m]);
    }
  }

  lemma {:induction false} AppendTwo(cfg: Config, l: Locals, a: Message, b: Message)
    requires Prompts(cfg, l) && a.role != Tool && !IsBatch(a) && b.role != Tool && !IsBatch(b)
    ensures Prompts(cfg, l.(msgs := l.msgs + [a, b]))
  {
    hide Prompts;
    AppendPlain(cfg, l, a);
    AppendPlain(cfg, l.(msgs := l.msgs + [a]), b);
    assert l.msgs + [a] + [b] == l.msgs + [a, b];
  }

  lemma {:induction false} AppendRound(cfg: Config, l: Locals, m: Message, results: seq<string>, n: nat)
    requires Prompts(cfg, l) && IsBatch(m) && |results| == |m.toolCalls| && ValidArguments(cfg.json, m.toolCalls)
    requires m.toolCalls == cfg.env.turn(n).toolCalls
    ensures Prompts(cfg, l.(msgs := l.msgs + [m] + ToolMessages(m.toolCalls, results)))
  {
    if PromptsExpected(cfg) {
      assert IdsPresent(cfg.env.turn(n).toolCalls);
      RoundIsProtocol(cfg.json, m, results);
      ProtocolAppend(cfg.json, l.msgs, [m] + ToolMessages(m.toolCalls, results));
      ConcatAssoc(l.msgs, [m], ToolMessages(m.toolCalls, results));
    }
  }

  lemma {:induction false} AppendEvent(cfg: Config, l: Locals, e: Event)
    requires Prompts(cfg, l) && (e.Planned? ==> e.prompt == l.msgs)
    ensures Prompts(cfg, l.(events := l.events + [e]))
    ensures !e.Dispatched? && !e.StepEnded? ==> ActsOf(l.events + [e]) == ActsOf(l.events)
    ensures e.Dispatched? ==> ActsOf(l.events + [e]) == ActsOf(l.events) + WithinStep(e.actions)
    ensures e.StepEnded? ==> ActsOf(l.events + [e]) == ActsOf(l.events) + [Protocols.NextStep]
  {
    assert (l.events + [e])[..|l.events|] == l.events;
  }

  lemma {:induction false} DraftInvEvent(cfg: Config, l: Locals, handle: string, text: string, store: Store, e: Event)
    requires DraftInv(cfg, l, handle, text, store) && !e.DraftPrepared? && (handle == "" || Calm(e))
    ensures DraftInv(cfg, l.(events := l.events + [e]), handle, text, store)
  {
    var events := l.events + [e];
    DraftNext(l.events, e);
    if handle != "" {
      var i :| 0 <= i < |l.events| && l.events[i].DraftPrepared?;
      assert events[i].DraftPrepared?;
    }
  }

  // ----- One planner turn, with in-place repairs -----

  predicate IsQuiet(e: Event) {
    !e.DraftNudged? && !e.Repaired? && !e.Returned? && !e.SentBack?
  }

  /** An event that shows and stores nothing. */
  lemma {:induction false} Quiet(cfg: Config, l: Locals, e: Event)
    requires IsQuiet(e)
    ensures l.msgs + Shown(cfg, l.events, e) == l.msgs && l.newMsgs + Stored(cfg, l.events, e) == l.newMsgs
  {
  }

  lemma {:induction false} NoteQuiet(cfg: Config, s: Start, l: Locals, handle: string, text: string, store: Store, tr: seq<Protocols.Run>, e: Event)
    requires Core(cfg, s, l, handle, text, store, tr) && Follows(cfg, s.msgs, l.events, e)
    requires IsQuiet(e) && !e.DraftPrepared? && (handle == "" || Calm(e))
    requires Gated(e) ==> GateTold(tr, |ActsOf(l.events)|, e.open)
    ensures Core(cfg, s, After(cfg, l, e), handle, text, store, tr)
    ensures After(cfg, l, e).msgs == l.msgs && After(cfg, l, e).newMsgs == l.newMsgs
    ensures ActsOf(l.events + [e]) == ActsOf(l.events) + if e.Dispatched? then WithinStep(e.actions) else if e.StepEnded? then [Protocols.NextStep] else []
  {
    hide Follows, Core, Prompts, Record;
    Quiet(cfg, l, e);
    CoreParts(cfg, s, l, handle, text, store, tr);
    Note(cfg, s, l, handle, text, store, tr, e);
  }

  lemma {:induction false} CoreParts(cfg: Config, s: Start, l: Locals, handle: string, text: string, store: Store, tr: seq<Protocols.Run>)
    requires Core(cfg, s, l, handle, text, store, tr)
    ensures Prompts(cfg, l) && Record(cfg, l.newMsgs) && DraftInv(cfg, l, handle, text, store) && Logged(cfg, s, l) && GatesTold(tr, l.events)
    ensures l.step == StepsOf(l.events) && l.plannerCalls == Count(l.events, Plans) && l.batches == Count(l.events, Batches)
    ensures l.argumentRepairs == Count(l.events, Repairs) && l.draftNudges == Count(l.events, Nudges) && l.terminals == Count(l.events, Submissions)
    ensures l.totalTokens == TokensOf(cfg, l.events) && DraftOf(l.events) == (handle, text)
    ensures l.msgs == TranscriptOf(cfg, s.msgs, l.events) && l.newMsgs == RecordOf(cfg, s.user, l.events)
  {
    hide Ordered, StepsOf, Count, TokensOf, TranscriptOf, RecordOf, Frozen, PromptsCorrect, GatesTold;
  }

  /** What planning changes: the transcript, the counters and the plan events. */
  ghost predicate PlanningOnly(l: Locals, l': Locals) {
    && l'.step == l.step && l'.newMsgs == l.newMsgs && l'.batches == l.batches && l'.terminals == l.terminals
    && ActsOf(l'.events) == ActsOf(l.events)
  }

  /** One call of the model: it is counted and its prompt is on record. */
  method CallPlanner(cfg: Config, ghost s: Start, l: Locals, ghost handle: string, ghost text: string, ghost store: Store, ghost tr: seq<Protocols.Run>)
    returns (l': Locals, turn: PlannerTurn)
    requires Core(cfg, s, l, handle, text, store, tr) && Follows(cfg, s.msgs, l.events, Planned(l.msgs))
    ensures Core(cfg, s, l', handle, text, store, tr) && PlanningOnly(l, l')
    ensures l'.argumentRepairs == l.argumentRepairs && l'.draftNudges == l.draftNudges && l'.plannerCalls == l.plannerCalls + 1
    ensures l'.events == l.events + [Planned(l.msgs)]
    ensures turn == cfg.env.turn(l.plannerCalls) == TurnOf(cfg, l'.events)
  {
    hide Core, Follows, Prompts, Record;
    ghost var e := Planned(l.msgs);
    NoteQuiet(cfg, s, l, handle, text, store, tr, e);
    CoreParts(cfg, s, l, handle, text, store, tr);
    CountNext(l.events, e, Plans);
    turn := cfg.env.turn(l.plannerCalls);
    l' := l.(events := l.events + [Planned(l.msgs)], plannerCalls := l.plannerCalls + 1,
             totalTokens := l.totalTokens + if turn.failed then 0 else turn.tokens);
    assert l' == After(cfg, l, e);
  }

  /** The decision on a turn, in terms of the loop's variables. */
  lemma {:induction false} DecideIs(cfg: Config, s: Start, l: Locals, handle: string, text: string, store: Store, tr: seq<Protocols.Run>, turn: PlannerTurn, over: bool)
    requires Core(cfg, s, l, handle, text, store, tr) && turn == TurnOf(cfg, l.events) && over == OverBudgetRepair(l.events)
    ensures var terminalOnly := IsTerminalOnly(cfg, turn.toolCalls);
      var live := cfg.reg.hasPrepare && handle != "";
      var finalizationOnly := terminalOnly || (cfg.reg.hasPrepare && handle == "" && IsPrepareOnly(turn.toolCalls));
      Decide(cfg, l.events)
      == if turn.failed then Stop(PlannerFailed)
         else if live && !terminalOnly then
           if turn.toolCalls != [] then Stop(NonterminalAfterPreparation)
           else if l.draftNudges >= MAX_DRAFT_NUDGES then Stop(SubmissionMissing) else NudgeDraft
         else if over && !finalizationOnly then Stop(NonterminalAfterFinalization)
         else if !ValidArguments(cfg.json, turn.toolCalls) then
           if l.argumentRepairs >= MAX_TOOL_ARGUMENT_REPAIRS || (l.totalTokens >= cfg.policy.maxTokens && !finalizationOnly) then Stop(InvalidArguments) else Repair
         else if turn.toolCalls == [] || terminalOnly then Attempt else UseTools
  {
    CoreParts(cfg, s, l, handle, text, store, tr);
    hide Core, Count, TokensOf, TurnOf, DraftOf, ValidArguments;
  }

  lemma {:induction false} StopEnds(cfg: Config, events: seq<Event>, reason: Failure)
    requires events != [] && events[|events| - 1].Planned? && Decide(cfg, events) == Stop(reason)
    ensures MayEnd(cfg, events, RunError(reason))
  {
    hide Decide, TurnOf;
  }

  lemma {:induction false} AskAdds(cfg: Config, l: Locals, e: Event, content: string)
    requires (e.DraftNudged? || e.Repaired?) && Shown(cfg, l.events, e) == [UserMessage(content)]
    ensures l.newMsgs + Stored(cfg, l.events, e) == l.newMsgs
    ensures After(cfg, l, e) == l.(events := l.events + [e], msgs := l.msgs + [UserMessage(content)],
                                   draftNudges := l.draftNudges + (if e.DraftNudged? then 1 else 0),
                                   argumentRepairs := l.argumentRepairs + (if e.Repaired? then 1 else 0))
  {
    hide Shown, TurnOf;
  }

  /** A message for the planner, with the event that tells of it. */
  method Ask(cfg: Config, ghost s: Start, l: Locals, e: Event, content: string, ghost handle: string, ghost text: string, ghost store: Store, ghost tr: seq<Protocols.Run>)
    returns (l': Locals)
    requires Core(cfg, s, l, handle, text, store, tr) && Follows(cfg, s.msgs, l.events, e)
    requires (e.DraftNudged? || e.Repaired?) && Shown(cfg, l.events, e) == [UserMessage(content)]
    ensures l' == After(cfg, l, e) && Core(cfg, s, l', handle, text, store, tr) && PlanningOnly(l, l')
    ensures Follows(cfg, s.msgs, l'.events, Planned(l'.msgs))
    ensures l'.msgs == l.msgs + [UserMessage(content)]
  {
    hide Core, Follows, Prompts, Record, Protocol, After, Shown, Stored, ActsOf, TranscriptOf;
    CoreParts(cfg, s, l, handle, text, store, tr);
    AppendPlain(cfg, l, UserMessage(content));
    AskAdds(cfg, l, e, content);
    Note(cfg, s, l, handle, text, store, tr, e);
    l' := l.(events := l.events + [e], msgs := l.msgs + [UserMessage(content)],
             draftNudges := l.draftNudges + (if e.DraftNudged? then 1 else 0),
             argumentRepairs := l.argumentRepairs + (if e.Repaired? then 1 else 0));
    CoreParts(cfg, s, l', handle, text, store, tr);
    MayPlanAgain(cfg, s.msgs, l'.events);
  }

  /** The state every part of a step keeps. */
  ghost predicate Kept(cfg: Config, s: Start, l: Locals, handle: string, text: string, store: Store, tr: seq<Protocols.Run>) {
    Core(cfg, s, l, handle, text, store, tr) && Budget(l.(step := l.step + 1), handle)
  }

  /** The planner's last turn is the one in hand. */
  ghost predicate InHand(cfg: Config, l: Locals, turn: PlannerTurn) {
    l.events != [] && l.plannerCalls >= 1 && turn == TurnOf(cfg, l.events) == cfg.env.turn(l.plannerCalls - 1)
  }

  /** What becomes of a turn: it is taken, ends the run, or is sent back with a message. */
  method ReviewTurn(cfg: Config, ghost s: Start, l0: Locals, turn: PlannerTurn, repairFinalOnly: bool, handle: string, ghost text: string, ghost store: Store, ghost tr: seq<Protocols.Run>)
    returns (l: Locals, retry: bool, finalOnly: bool, err: Option<Failure>)
    requires Kept(cfg, s, l0, handle, text, store, tr) && InHand(cfg, l0, turn)
    requires l0.events[|l0.events| - 1].Planned?
    requires !(cfg.reg.hasPrepare && handle != "") ==> (repairFinalOnly <==> OverBudgetRepair(l0.events))
    ensures !retry ==> l == l0
    ensures err.Some? ==> !retry && Decide(cfg, l.events) == Stop(err.value)
    ensures err.None? && !retry ==> Usable(cfg, l.events, turn, handle)
    ensures retry ==> Core(cfg, s, l, handle, text, store, tr) && Budget(l, handle) && PlanningOnly(l0, l) && l.events != []
                      && Follows(cfg, s.msgs, l.events, Planned(l.msgs)) && TriesLeft(l) < TriesLeft(l0)
                      && (!(cfg.reg.hasPrepare && handle != "") ==> (finalOnly <==> l.events[|l.events| - 1] == Repaired(true)))
  {
    hide Core, Follows, Decide, MayEnd, Shown, TurnOf, ValidArguments, ActsOf, IsTerminalOnly, IsPrepareOnly;
    l, retry, finalOnly, err := l0, false, repairFinalOnly, None;
    DecideIs(cfg, s, l, handle, text, store, tr, turn, OverBudgetRepair(l.events));
    var terminalOnly := IsTerminalOnly(cfg, turn.toolCalls);
    if turn.failed {
      err := Some(PlannerFailed);
      return;
    }
    if cfg.reg.hasPrepare && handle != "" && !terminalOnly {
      if turn.toolCalls != [] {
        err := Some(NonterminalAfterPreparation);
        return;
      }
      if l.draftNudges >= MAX_DRAFT_NUDGES {
        err := Some(SubmissionMissing);
        return;
      }
      MayGoOn(cfg, s.msgs, l.events, true);
      NudgeShown(cfg, l.events, false);
      retry := true;
      l := Ask(cfg, s, l, DraftNudged, "submit the prepared draft", handle, text, store, tr);
      return;
    }
    var finalizationOnly := terminalOnly || (cfg.reg.hasPrepare && handle == "" && IsPrepareOnly(turn.toolCalls));
    if repairFinalOnly && !finalizationOnly {
      err := Some(NonterminalAfterFinalization);
      return;
    }
    if ValidArguments(cfg.json, turn.toolCalls) {
      return;
    }
    if l.argumentRepairs >= MAX_TOOL_ARGUMENT_REPAIRS || (l.totalTokens >= cfg.policy.maxTokens && !finalizationOnly) {
      err := Some(InvalidArguments);
      return;
    }
    MayGoOn(cfg, s.msgs, l.events, true);
    TokensAre(cfg, s, l, handle, text, store, tr);
    retry, finalOnly := true, l.totalTokens >= cfg.policy.maxTokens;
    NudgeShown(cfg, l.events, finalOnly);
    l := Ask(cfg, s, l, Repaired(finalOnly), "repair the tool arguments", handle, text, store, tr);
  }

  lemma {:induction false} TokensAre(cfg: Config, s: Start, l: Locals, handle: string, text: string, store: Store, tr: seq<Protocols.Run>)
    requires Core(cfg, s, l, handle, text, store, tr)
    ensures l.totalTokens == TokensOf(cfg, l.events)
  {
    CoreParts(cfg, s, l, handle, text, store, tr);
  }

  function TriesLeft(l: Locals): int {
    MAX_TOOL_ARGUMENT_REPAIRS - l.argumentRepairs + MAX_DRAFT_NUDGES - l.draftNudges
  }

  /** The turn answers, submits or calls tools with arguments in order. */
  ghost predicate Usable(cfg: Config, events: seq<Event>, turn: PlannerTurn, handle: string) {
    && ValidArguments(cfg.json, turn.toolCalls)
    && (cfg.reg.hasPrepare && handle != "" ==> IsTerminalOnly(cfg, turn.toolCalls))
    && Decide(cfg, events) == if turn.toolCalls == [] || IsTerminalOnly(cfg, turn.toolCalls) then Attempt else UseTools
  }

  /** One planner turn of a step: turns that need a repair or a nudge are sent back, within
      the limits. */
  method PlanTurn(cfg: Config, ghost s: Start, l0: Locals, handle: string, ghost text: string, ghost store: Store, ghost tr: seq<Protocols.Run>)
    returns (l: Locals, turn: PlannerTurn, err: Option<Failure>)
    requires Core(cfg, s, l0, handle, text, store, tr) && Budget(l0, handle)
    requires Follows(cfg, s.msgs, l0.events, Planned(l0.msgs)) && (l0.events == [] || l0.events[|l0.events| - 1].StepEnded?)
    ensures Kept(cfg, s, l, handle, text, store, tr) && PlanningOnly(l0, l) && InHand(cfg, l, turn)
    ensures l.events[|l.events| - 1].Planned?
    ensures err.Some? ==> MayEnd(cfg, l.events, RunError(err.value))
    ensures err.None? ==> Usable(cfg, l.events, turn, handle)
  {
    hide Core, Follows, Decide, MayEnd, TurnOf, Usable, ActsOf;
    l := l0;
    var repairFinalOnly := false;
    while true
      invariant Core(cfg, s, l, handle, text, store, tr) && PlanningOnly(l0, l) && Budget(l, handle)
      invariant Follows(cfg, s.msgs, l.events, Planned(l.msgs))
      invariant !(cfg.reg.hasPrepare && handle != "") ==> (repairFinalOnly <==> l.events != [] && l.events[|l.events| - 1] == Repaired(true))
      decreases TriesLeft(l)
    {
      var retry;
      l, turn := CallPlanner(cfg, s, l, handle, text, store, tr);
      l, retry, repairFinalOnly, err := ReviewTurn(cfg, s, l, turn, repairFinalOnly, handle, text, store, tr);
      if err.Some? {
        StopEnds(cfg, l.events, err.value);
      }
      if !retry {
        return;
      }
    }
  }

  lemma {:induction false} NudgeShown(cfg: Config, events: seq<Event>, over: bool)
    ensures Shown(cfg, events, DraftNudged) == [UserMessage("submit the prepared draft")]
    ensures Shown(cfg, events, Repaired(over)) == [UserMessage("repair the tool arguments")]
  {
  }

  // ----- A final answer or a terminal submission -----

  lemma {:induction false} RecordAppend(cfg: Config, newMsgs: seq<Message>, m: Message)
    requires CleanRecord(cfg, newMsgs) && m.role != Tool && m.toolCalls == []
    ensures CleanRecord(cfg, newMsgs + [m])
  {
    if RecordExpected(cfg) {
      PlainIsClean(cfg.json, cfg.policy.terminalTool, m);
      CleanAppend(cfg.json, cfg.policy.terminalTool, newMsgs, [m]);
    }
  }

  /** An attempt to answer touches neither the step, nor the record, nor the store. */
  predicate SameRun(l: Locals, l': Locals) {
    l'.step == l.step && l'.newMsgs == l.newMsgs && ActsOf(l'.events) == ActsOf(l.events)
  }

  /** An event during an attempt that shows nothing. */
  lemma {:induction false} AttemptEvent(cfg: Config, s: Start, l: Locals, handle: string, text: string, store: Store, tr: seq<Protocols.Run>, turn: PlannerTurn, e: Event)
    requires Kept(cfg, s, l, handle, text, store, tr) && InHand(cfg, l, turn) && Follows(cfg, s.msgs, l.events, e)
    requires e.Attempted? || e.GateFired? || e.Judged?
    requires handle == "" || Calm(e)
    requires e.Attempted? ==> GateTold(tr, |ActsOf(l.events)|, e.open)
    ensures var l' := l.(events := l.events + [e], terminals := l.terminals + if e.Judged? then 1 else 0);
      Kept(cfg, s, l', handle, text, store, tr) && SameRun(l, l') && InHand(cfg, l', turn)
  {
    hide Core, Follows, TurnOf, ActsOf;
    NoteQuiet(cfg, s, l, handle, text, store, tr, e);
    SameTurn(cfg, l.events, e);
    assert After(cfg, l, e) == l.(events := l.events + [e], terminals := l.terminals + if e.Judged? then 1 else 0);
  }

  lemma {:induction false} SameTurn(cfg: Config, events: seq<Event>, e: Event)
    requires !e.Planned?
    ensures TurnOf(cfg, events + [e]) == TurnOf(cfg, events)
  {
    CountNext(events, e, Plans);
  }

  /** The rejected turn is answered with messages, and the planner may try again. */
  method SendBack(cfg: Config, ghost s: Start, l: Locals, turn: PlannerTurn, messages: seq<Message>, ghost handle: string, ghost text: string, ghost store: Store, ghost tr: seq<Protocols.Run>)
    returns (l': Locals)
    requires Kept(cfg, s, l, handle, text, store, tr) && InHand(cfg, l, turn) && Follows(cfg, s.msgs, l.events, SentBack)
    requires messages == Shown(cfg, l.events, SentBack) && Prompts(cfg, l.(msgs := l.msgs + messages))
    ensures Kept(cfg, s, l', handle, text, store, tr) && SameRun(l, l') && l'.events == l.events + [SentBack]
  {
    hide Core, Follows, Prompts, Record, TurnOf, Shown, ActsOf;
    CoreParts(cfg, s, l, handle, text, store, tr);
    assert l.newMsgs + Stored(cfg, l.events, SentBack) == l.newMsgs;
    Note(cfg, s, l, handle, text, store, tr, SentBack);
    l' := l.(events := l.events + [SentBack], msgs := l.msgs + messages);
    assert l' == After(cfg, l, SentBack);
  }

  /** The transient pair of a terminal call and its result fits the transcript. */
  lemma {:induction false} PairFits(cfg: Config, l: Locals, turn: PlannerTurn, result: string, more: seq<Message>)
    requires Prompts(cfg, l) && IsTerminalOnly(cfg, turn.toolCalls) && ValidArguments(cfg.json, turn.toolCalls)
    requires l.plannerCalls >= 1 && turn == cfg.env.turn(l.plannerCalls - 1)
    requires more == [] || (|more| == 1 && more[0].role == User)
    ensures Prompts(cfg, l.(msgs := l.msgs + (TerminalPair(turn, result) + more)))
  {
    hide Prompts, ToolMessages;
    var m := AssistantMessage(turn.content, turn.toolCalls);
    var results := seq(|turn.toolCalls|, i => result);
    AppendRound(cfg, l, m, results, l.plannerCalls - 1);
    var l1 := l.(msgs := l.msgs + [m] + ToolMessages(turn.toolCalls, results));
    assert l.msgs + (TerminalPair(turn, result) + []) == l1.msgs;
    if more != [] {
      AppendPlain(cfg, l1, more[0]);
      assert l.msgs + (TerminalPair(turn, result) + more) == l1.msgs + [more[0]];
    }
  }

  /** What a rejected turn is answered with. */
  lemma {:induction false} ShownBack(cfg: Config, events: seq<Event>, turn: PlannerTurn)
    requires events != [] && turn == TurnOf(cfg, events)
    ensures events[|events| - 1].GateFired? ==>
              Shown(cfg, events, SentBack) == (if turn.toolCalls != [] then TerminalPair(turn, "map/reduce incomplete") else []) + [UserMessage("finish map/reduce first")]
    ensures events[|events| - 1].Judged? && turn.toolCalls != [] ==> Shown(cfg, events, SentBack) == TerminalPair(turn, "refused")
    ensures events[|events| - 1].Attempted? && turn.toolCalls == [] ==>
              Shown(cfg, events, SentBack) == if cfg.policy.terminalTool != "" then [UserMessage("submit through the terminal tool")]
                                              else [AssistantMessage("", []), UserMessage("give the final answer")]
  {
    hide TerminalPair, TurnOf;
  }

  lemma {:induction false} StepTold(cfg: Config, s: Start, l: Locals, handle: string, text: string, store: Store, tr: seq<Protocols.Run>)
    requires Core(cfg, s, l, handle, text, store, tr)
    ensures Prompts(cfg, l) && (AtFinalStep(cfg, l.events) <==> l.step >= cfg.policy.maxSteps - 1)
  {
    hide Core, StepsOf, Prompts;
    CoreParts(cfg, s, l, handle, text, store, tr);
  }

  /** A rejection at the last step fails the run. */
  lemma {:induction false} RejectionEnds(cfg: Config, events: seq<Event>)
    requires events != [] && AtFinalStep(cfg, events)
    ensures events[|events| - 1] == GateFired ==> MayEnd(cfg, events, RunError(GateClosed))
    ensures events[|events| - 1] == Judged(None) ==> MayEnd(cfg, events, RunError(SubmissionRefused))
    ensures events[|events| - 1] == Attempted(true) && TurnOf(cfg, events).toolCalls == [] && !TextAnswers(cfg, TurnOf(cfg, events)) ==>
              MayEnd(cfg, events, RunError(if cfg.policy.terminalTool != "" then TerminalRequired else EmptyResponse))
  {
    hide TurnOf, Decide, AtFinalStep, TextAnswers;
  }

  /** The completeness gate rejected the answer: the model is told, nothing is stored. */
  method RejectAtGate(cfg: Config, ghost s: Start, l0: Locals, turn: PlannerTurn, ghost handle: string, ghost text: string, ghost store: Store, ghost tr: seq<Protocols.Run>)
    returns (l: Locals, out: Option<Outcome>)
    requires Kept(cfg, s, l0, handle, text, store, tr) && handle == "" && InHand(cfg, l0, turn)
    requires l0.events[|l0.events| - 1] == Attempted(false) && (turn.toolCalls == [] || IsTerminalOnly(cfg, turn.toolCalls)) && ValidArguments(cfg.json, turn.toolCalls)
    ensures Kept(cfg, s, l, handle, text, store, tr) && SameRun(l0, l)
    ensures out.None? <==> l0.step < cfg.policy.maxSteps - 1
    ensures out.Some? ==> out.value.RunError? && MayEnd(cfg, l.events, out.value)
    ensures out.None? ==> l.events != [] && l.events[|l.events| - 1] == SentBack
  {
    hide Core, Follows, TurnOf, ActsOf, Prompts, ValidArguments, TerminalPair, Shown, MayEnd, AtFinalStep;
    MayBeJudged(cfg, s.msgs, l0.events);
    AttemptEvent(cfg, s, l0, handle, text, store, tr, turn, GateFired);
    l := l0.(events := l0.events + [GateFired]);
    StepTold(cfg, s, l, handle, text, store, tr);
    if l.step >= cfg.policy.maxSteps - 1 {
      RejectionEnds(cfg, l.events);
      return l, Some(RunError(GateClosed));
    }
    MayBeJudged(cfg, s.msgs, l.events);
    ShownBack(cfg, l.events, turn);
    var told := [UserMessage("finish map/reduce first")];
    var messages := (if turn.toolCalls != [] then TerminalPair(turn, "map/reduce incomplete") else []) + told;
    if turn.toolCalls != [] {
      PairFits(cfg, l, turn, "map/reduce incomplete", told);
    } else {
      AppendPlain(cfg, l, told[0]);
      assert messages == told;
    }
    l := SendBack(cfg, s, l, turn, messages, handle, text, store, tr);
    return l, None;
  }

  /** A turn without calls that is no answer: the model is told what is missing. */
  method RejectText(cfg: Config, ghost s: Start, l0: Locals, turn: PlannerTurn, ghost handle: string, ghost text: string, ghost store: Store, ghost tr: seq<Protocols.Run>)
    returns (l: Locals, out: Option<Outcome>)
    requires Kept(cfg, s, l0, handle, text, store, tr) && InHand(cfg, l0, turn)
    requires l0.events[|l0.events| - 1] == Attempted(true) && turn.toolCalls == [] && !TextAnswers(cfg, turn)
    ensures Kept(cfg, s, l, handle, text, store, tr) && SameRun(l0, l)
    ensures out.None? <==> l0.step < cfg.policy.maxSteps - 1
    ensures out.Some? ==> out.value.RunError? && MayEnd(cfg, l.events, out.value)
    ensures out.None? ==> l.events != [] && l.events[|l.events| - 1] == SentBack
  {
    hide Core, Follows, TurnOf, ActsOf, Prompts, Shown, MayEnd, AtFinalStep;
    l := l0;
    StepTold(cfg, s, l, handle, text, store, tr);
    MayBeJudged(cfg, s.msgs, l.events);
    ShownBack(cfg, l.events, turn);
    if cfg.policy.terminalTool != "" {
      if l.step >= cfg.policy.maxSteps - 1 {
        RejectionEnds(cfg, l.events);
        return l, Some(RunError(TerminalRequired));
      }
      var m := UserMessage("submit through the terminal tool");
      AppendPlain(cfg, l, m);
      l := SendBack(cfg, s, l, turn, [m], handle, text, store, tr);
      return l, None;
    }
    if l.step >= cfg.policy.maxSteps - 1 {
      RejectionEnds(cfg, l.events);
      return l, Some(RunError(EmptyResponse));
    }
    var blank, m := AssistantMessage("", []), UserMessage("give the final answer");
    AppendTwo(cfg, l, blank, m);
    l := SendBack(cfg, s, l, turn, [blank, m], handle, text, store, tr);
    return l, None;
  }

  /** A refused submission: the model is told, unless it was the last step. */
  method RefuseSubmission(cfg: Config, ghost s: Start, l0: Locals, turn: PlannerTurn, ghost handle: string, ghost text: string, ghost store: Store, ghost tr: seq<Protocols.Run>)
    returns (l: Locals, out: Option<Outcome>)
    requires Kept(cfg, s, l0, handle, text, store, tr) && InHand(cfg, l0, turn)
    requires l0.events[|l0.events| - 1] == Judged(None) && IsTerminalOnly(cfg, turn.toolCalls) && ValidArguments(cfg.json, turn.toolCalls)
    ensures Kept(cfg, s, l, handle, text, store, tr) && SameRun(l0, l)
    ensures out.None? <==> l0.step < cfg.policy.maxSteps - 1
    ensures out.Some? ==> out.value.RunError? && MayEnd(cfg, l.events, out.value)
    ensures out.None? ==> l.events != [] && l.events[|l.events| - 1] == SentBack
  {
    hide Core, Follows, TurnOf, ActsOf, Prompts, ValidArguments, TerminalPair, Shown, MayEnd, AtFinalStep;
    l := l0;
    StepTold(cfg, s, l, handle, text, store, tr);
    if l.step >= cfg.policy.maxSteps - 1 {
      RejectionEnds(cfg, l.events);
      return l, Some(RunError(SubmissionRefused));
    }
    MayBeJudged(cfg, s.msgs, l.events);
    ShownBack(cfg, l.events, turn);
    PairFits(cfg, l, turn, "refused", []);
    var messages := TerminalPair(turn, "refused");
    assert messages + [] == messages;
    l := SendBack(cfg, s, l, turn, messages, handle, text, store, tr);
    out := None;
  }

  /** The submission: the handler's verdict, with this run's draft. */
  method SubmitTurn(cfg: Config, ghost s: Start, l0: Locals, turn: PlannerTurn, ghost store: Store, draft: Draft.SummaryDraftState, ghost tr: seq<Protocols.Run>)
    returns (l: Locals, out: Option<Outcome>)
    requires Kept(cfg, s, l0, draft.handle, draft.text, store, tr) && InHand(cfg, l0, turn)
    requires l0.events[|l0.events| - 1] == Attempted(true) && IsTerminalOnly(cfg, turn.toolCalls) && ValidArguments(cfg.json, turn.toolCalls)
    ensures Kept(cfg, s, l, draft.handle, draft.text, store, tr) && SameRun(l0, l)
    ensures out.Some? ==> MayEnd(cfg, l.events, out.value)
    ensures out.None? ==> l.events != [] && l.events[|l.events| - 1] == SentBack
    ensures out.Some? && out.value.Answer? ==> Delivered(cfg, out.value, draft.handle, draft.text) && SubmitsDraft(cfg, out.value, l.events, draft.text)
  {
    hide Core, Follows, TurnOf, ActsOf, Prompts, ValidArguments, Delivered, SubmitsDraft, MayEnd, Verdict, Submitted;
    ghost var handle, text := draft.handle, draft.text;
    VerdictIs(cfg, s, l0, handle, text, store, tr);
    MayBeJudged(cfg, s.msgs, l0.events);
    var k := l0.terminals;
    var state := if cfg.reg.hasPrepare then draft else null;
    var accepted := Submission.Submit(cfg.lower, state, cfg.env.submission(k), cfg.env.rules(k));
    assert accepted == Submitted(cfg, k, handle, text) by { SubmittedIs(cfg, k, handle, text); }
    AttemptEvent(cfg, s, l0, handle, text, store, tr, turn, Judged(accepted));
    l := l0.(events := l0.events + [Judged(accepted)], terminals := k + 1);
    if accepted.None? {
      l, out := RefuseSubmission(cfg, s, l, turn, handle, text, store, tr);
      return;
    }
    AcceptedEnds(cfg, l, k, handle, text, accepted);
    DraftKept(cfg, s, l, handle, text, store, tr);
    SubmissionTold(cfg, l, k, handle, text, store);
    return l, Some(Answer(accepted.value.reply, accepted));
  }

  lemma {:induction false} VerdictIs(cfg: Config, s: Start, l: Locals, handle: string, text: string, store: Store, tr: seq<Protocols.Run>)
    requires Core(cfg, s, l, handle, text, store, tr)
    ensures Verdict(cfg, l.events) == Submitted(cfg, l.terminals, handle, text)
  {
    CoreParts(cfg, s, l, handle, text, store, tr);
    hide Core, Submitted, Count, DraftOf;
  }

  lemma {:induction false} SubmittedIs(cfg: Config, k: nat, handle: string, text: string)
    ensures Submitted(cfg, k, handle, text)
         == Submission.SubmitSpec(cfg.lower, if cfg.reg.hasPrepare then Some(Submission.Draft(handle, text)) else None, cfg.env.submission(k), cfg.env.rules(k))
  {
  }

  lemma {:induction false} DraftKept(cfg: Config, s: Start, l: Locals, handle: string, text: string, store: Store, tr: seq<Protocols.Run>)
    requires Core(cfg, s, l, handle, text, store, tr)
    ensures DraftInv(cfg, l, handle, text, store)
  {
    CoreParts(cfg, s, l, handle, text, store, tr);
  }

  lemma {:induction false} AcceptedEnds(cfg: Config, l: Locals, k: nat, handle: string, text: string, accepted: Option<Submission.Args>)
    requires l.events != [] && l.events[|l.events| - 1] == Judged(accepted) && accepted == Submitted(cfg, k, handle, text) && accepted.Some?
    ensures MayEnd(cfg, l.events, Answer(accepted.value.reply, accepted))
  {
    hide TurnOf, Decide;
  }

  /** A turn that answers or submits is accepted, or rejected with another try, or, at the
      last step, fails the run. */
  method FinalAttempt(cfg: Config, ghost s: Start, l0: Locals, turn: PlannerTurn, store: SummaryHandleStore, draft: Draft.SummaryDraftState, ghost tr: seq<Protocols.Run>)
    returns (l: Locals, out: Option<Outcome>)
    requires Kept(cfg, s, l0, draft.handle, draft.text, store.State(), tr) && InHand(cfg, l0, turn)
    requires l0.events[|l0.events| - 1].Planned? && Decide(cfg, l0.events) == Attempt
    requires turn.toolCalls == [] || IsTerminalOnly(cfg, turn.toolCalls)
    requires ValidArguments(cfg.json, turn.toolCalls) && Traced(tr, ActsOf(l0.events), store.State(), store.log)
    ensures Kept(cfg, s, l, draft.handle, draft.text, store.State(), tr) && SameRun(l0, l)
    ensures out.Some? ==> MayEnd(cfg, l.events, out.value)
    ensures out.None? ==> l.events != [] && l.events[|l.events| - 1] == SentBack
    ensures out.Some? && out.value.Answer? ==> Protocols.GatePasses(store.State())
    ensures out.Some? && out.value.Answer? ==> Delivered(cfg, out.value, draft.handle, draft.text) && SubmitsDraft(cfg, out.value, l.events, draft.text)
  {
    hide Core, Follows, TurnOf, ActsOf, ValidArguments, Decide, Protocols.Behaviour, Protocols.GatePasses;
    ghost var handle, text := draft.handle, draft.text;
    Draft.GateOpen(store.State());
    var open := |store.mapFailures| == 0 && store.generation <= store.reducedGeneration;
    MayGoOn(cfg, s.msgs, l0.events, open);
    TraceTells(tr, ActsOf(l0.events), open, store.State(), store.log);
    AttemptEvent(cfg, s, l0, handle, text, store.State(), tr, turn, Attempted(open));
    l := l0.(events := l0.events + [Attempted(open)]);
    if !open {
      NoDraftBehindGate(cfg, s, l, handle, text, store.State(), tr);
      l, out := RejectAtGate(cfg, s, l, turn, handle, text, store.State(), tr);
      return;
    }
    if turn.toolCalls != [] {
      l, out := SubmitTurn(cfg, s, l, turn, store.State(), draft, tr);
      return;
    }
    if !TextAnswers(cfg, turn) {
      l, out := RejectText(cfg, s, l, turn, handle, text, store.State(), tr);
      return;
    }
    TextDelivered(cfg, l, turn, handle, text);
    return l, Some(Answer(turn.content, None));
  }

  lemma {:induction false} TraceTells(tr: seq<Protocols.Run>, acts: seq<Protocols.Action>, open: bool, store: Store, log: seq<Entry>)
    requires Traced(tr, acts, store, log) && (open <==> Protocols.GatePasses(store))
    ensures GateTold(tr, |acts|, open)
  {
  }

  lemma {:induction false} NoDraftBehindGate(cfg: Config, s: Start, l: Locals, handle: string, text: string, store: Store, tr: seq<Protocols.Run>)
    requires Core(cfg, s, l, handle, text, store, tr) && !Protocols.GatePasses(store)
    ensures handle == ""
  {
    hide Logged, Prompts, Record, Frozen, DraftTold, GatesTold;
  }

  lemma {:induction false} TextDelivered(cfg: Config, l: Locals, turn: PlannerTurn, handle: string, text: string)
    requires InHand(cfg, l, turn) && turn.toolCalls == [] && TextAnswers(cfg, turn) && l.events[|l.events| - 1] == Attempted(true)
    ensures Delivered(cfg, Answer(turn.content, None), handle, text) && SubmitsDraft(cfg, Answer(turn.content, None), l.events, text)
    ensures MayEnd(cfg, l.events, Answer(turn.content, None))
  {
    hide TurnOf, Decide;
    assert Answered(cfg, l.plannerCalls - 1) == AssistantMessage(turn.content, []);
  }

  /** What an accepted submission tells about the run. */
  lemma {:induction false} SubmissionTold(cfg: Config, l: Locals, k: nat, handle: string, text: string, store: Store)
    requires Submitted(cfg, k, handle, text).Some? && DraftInv(cfg, l, handle, text, store)
    requires cfg.policy.terminalTool in cfg.reg.terminals
    ensures var a := Submitted(cfg, k, handle, text);
      && Delivered(cfg, Answer(a.value.reply, a), handle, text)
      && SubmitsDraft(cfg, Answer(a.value.reply, a), l.events, text)
  {
    var live := if cfg.reg.hasPrepare then Some(Submission.Draft(handle, text)) else None;
    Submission.AcceptedCarriesDraft(cfg.lower, live, cfg.env.submission(k), cfg.env.rules(k));
  }

  // ----- One tool batch -----

  /** One store operation of a concurrent call. */
  method ApplyOne(store: SummaryHandleStore, a: Protocols.Action, step: nat, resolved: seq<Resolution>,
                  ghost tr: seq<Protocols.Run>, ghost acts: seq<Protocols.Action>)
    returns (resolved': seq<Resolution>, ghost tr': seq<Protocols.Run>)
    requires store.Valid() && Traced(tr, acts, store.State(), store.log) && InStep(tr, acts, step, resolved)
    modifies store
    ensures store.Valid()
    ensures var acts' := if a == Protocols.NextStep then acts else acts + [a];
      Traced(tr', acts', store.State(), store.log) && InStep(tr', acts', step, resolved') && tr <= tr'
  {
    resolved', tr' := resolved, tr;
    if a == Protocols.NextStep {
      return;
    }
    ghost var run := tr[|acts|];
    match a {
      case Map(text, chunkCount) =>
        var put := store.PutAtStep(text, chunkCount, step);
        run := run.(store := store.State(), log := store.log);
      case MapFails(target) =>
        store.MarkMapFailed(target, step);
        run := run.(store := store.State());
      case MapSucceeds(target) =>
        store.MarkMapSucceeded(target, step);
        run := run.(store := store.State());
      case BeginReduce(handles) =>
        var r := store.ResolveAllBefore(handles, step);
        if r.Ok? {
          resolved' := resolved + [r.value];
          run := run.(resolved := resolved');
        }
      case EndReduce(k) =>
        if k < |resolved| {
          var due := resolved[k].generation == store.generation;
          store.MarkReduced(resolved[k].generation);
          if due {
            run := run.(store := store.State(), reduces := run.reduces + [resolved[k]]);
          }
        }
    }
    TraceGrows(tr, acts, a, run);
    tr' := tr + [run];
  }

  /** Where the traced run stands in its current step. */
  ghost predicate InStep(tr: seq<Protocols.Run>, acts: seq<Protocols.Action>, step: nat, resolved: seq<Resolution>) {
    |tr| == |acts| + 1 && tr[|acts|].step == step && tr[|acts|].resolved == resolved
  }

  method ApplyActions(store: SummaryHandleStore, actions: seq<Protocols.Action>, step: nat,
                      ghost tr: seq<Protocols.Run>, ghost acts: seq<Protocols.Action>)
    returns (ghost tr': seq<Protocols.Run>)
    requires store.Valid() && Traced(tr, acts, store.State(), store.log) && InStep(tr, acts, step, [])
    modifies store
    ensures store.Valid() && Traced(tr', acts + WithinStep(actions), store.State(), store.log)
    ensures EndsStep(tr', acts + WithinStep(actions), step) && tr <= tr'
  {
    hide Traced;
    var resolved: seq<Resolution> := [];
    tr' := tr;
    ghost var acts' := acts;
    assert acts + WithinStep([]) == acts;
    for i := 0 to |actions|
      invariant store.Valid() && acts' == acts + WithinStep(actions[..i])
      invariant Traced(tr', acts', store.State(), store.log) && InStep(tr', acts', step, resolved) && tr <= tr'
    {
      WithinStepNext(acts, actions, i);
      resolved, tr' := ApplyOne(store, actions[i], step, resolved, tr', acts');
      acts' := if actions[i] == Protocols.NextStep then acts' else acts' + [actions[i]];
    }
    assert actions[..|actions|] == actions;
  }

  ghost predicate EndsStep(tr: seq<Protocols.Run>, acts: seq<Protocols.Action>, step: nat) {
    |tr| == |acts| + 1 && tr[|acts|].step == step
  }

  lemma {:induction false} WithinStepNext(acts: seq<Protocols.Action>, actions: seq<Protocols.Action>, i: nat)
    requires i < |actions|
    ensures acts + WithinStep(actions[..i + 1])
         == acts + WithinStep(actions[..i]) + if actions[i] == Protocols.NextStep then [] else [actions[i]]
  {
    assert actions[..i + 1][..i] == actions[..i];
  }

  /** What a batch leaves of the draft: nothing, unless it is a call for a draft in order;
      then a draft or a failure, as the writer's answers decide. */
  ghost predicate DraftResult(cfg: Config, calls: seq<Call>, p: PrepareInput, open: bool, handle: string, text: string, err: Option<Draft.Reason>) {
    if AsksForDraft(cfg, calls, p, open) then
      match err
      case None => handle == "draft_" + p.writer.uuid && Draft.Prepared(cfg.lower, p.ev, text)
                   && exists n: nat :: Draft.Written(cfg.lower, p.ev, p.analyses, p.writer, n, text)
      case Some(reason) => handle == "" && exists n: nat :: Draft.Rejected(cfg.lower, p.ev, p.analyses, p.writer, n, reason)
    else handle == "" && err == None
  }

  /** The results of a batch. */
  function ResultsOf(calls: seq<Call>, batch: Batch): (results: seq<string>)
    ensures |results| == |calls|
  {
    if MixesPreparation(calls) then seq(|calls|, i => "prepare_summary_draft must be called alone") else seq(|calls|, i requires 0 <= i => batch.result(i))
  }

  /** runTools: a batch that mixes preparation with other calls is rejected whole;
      preparation alone runs the draft writer; anything else works on the store. */
  method RunTools(cfg: Config, calls: seq<Call>, step: nat, n: nat, store: SummaryHandleStore, draft: Draft.SummaryDraftState,
                  ghost tr: seq<Protocols.Run>, ghost acts: seq<Protocols.Action>)
    returns (results: seq<string>, dispatched: bool, actions: seq<Protocols.Action>, ghost tr': seq<Protocols.Run>)
    requires store.Valid() && Traced(tr, acts, store.State(), store.log) && InStep(tr, acts, step, [])
    requires draft.handle == "" && draft.err == None && draft.tokens == 0
    modifies store, draft
    ensures results == ResultsOf(calls, cfg.env.batch(n))
    ensures dispatched <==> !MixesPreparation(calls)
    ensures actions == if !dispatched || IsPrepareOnly(calls) then [] else cfg.env.batch(n).actions
    ensures store.Valid() && Traced(tr', acts + WithinStep(actions), store.State(), store.log)
    ensures EndsStep(tr', acts + WithinStep(actions), step) && tr <= tr'
    ensures DraftResult(cfg, calls, cfg.env.batch(n).prepare, Protocols.GatePasses(old(store.State())), draft.handle, draft.text, draft.err)
    ensures draft.handle == "" ==> draft.text == old(draft.text)
    ensures draft.handle != "" ==> Protocols.GatePasses(store.State())
    ensures BatchTokens(cfg, cfg.env.batch(n).prepare, calls, Protocols.GatePasses(old(store.State())), draft.tokens)
  {
    hide Traced;
    tr', actions := tr, [];
    assert acts + WithinStep([]) == acts;
    results := ResultsOf(calls, cfg.env.batch(n));
    dispatched := !MixesPreparation(calls);
    if !dispatched {
      return;
    }
    var b := cfg.env.batch(n);
    if IsPrepareOnly(calls) {
      if cfg.reg.hasPrepare {
        var p := b.prepare;
        var ok, asked := draft.Prepare(cfg.lower, p.emptyArgs, true, p.routeAllows, store, p.ev, p.analyses, p.writer);
      }
    } else {
      actions := b.actions;
      tr' := ApplyActions(store, actions, step, tr, acts);
    }
  }

  predicate SameStart(a: seq<Message>, b: seq<Message>) {
    a != [] && b != [] && a[0] == b[0]
  }

  /** Transcript and record of a finished batch, and the budget nudge. */
  method AppendBatch(cfg: Config, ghost s: Start, l: Locals, turn: PlannerTurn, results: seq<string>, ghost text: string, ghost store: Store, ghost tr: seq<Protocols.Run>)
    returns (l': Locals)
    requires Kept(cfg, s, l, "", text, store, tr) && InHand(cfg, l, turn) && Follows(cfg, s.msgs, l.events, Returned(results))
    requires turn.toolCalls != [] && ValidArguments(cfg.json, turn.toolCalls) && |results| == |turn.toolCalls|
    ensures Kept(cfg, s, l', "", text, store, tr) && InHand(cfg, l', turn) && SameStart(l.newMsgs, l'.newMsgs)
    ensures l' == After(cfg, l, Returned(results)) && l'.step == l.step && ActsOf(l'.events) == ActsOf(l.events)
  {
    hide Core, Follows, TurnOf, ActsOf, Prompts, Record, ValidArguments, ToolMessages, DurableRound, TokensOf, Shown, Stored, After, SameStart;
    PartsTold(cfg, s, l, "", text, store, tr);
    var m := AssistantMessage(turn.content, turn.toolCalls);
    var told := if l.totalTokens >= cfg.policy.maxTokens then [UserMessage("token budget reached")] else [];
    var round := DurableRound(cfg.reg, cfg.policy.terminalTool, m, results);
    RoundFits(cfg, l, turn, results, told);
    RoundRecorded(cfg, l, turn, results);
    ReturnAdds(cfg, l, turn, results);
    Note(cfg, s, l, "", text, store, tr, Returned(results));
    SameTurn(cfg, l.events, Returned(results));
    l' := l.(events := l.events + [Returned(results)],
             msgs := l.msgs + ([m] + ToolMessages(turn.toolCalls, results) + told), newMsgs := l.newMsgs + round);
    FirstStays(cfg, l.newMsgs, round);
  }

  /** What a returned batch adds to transcript and record. */
  lemma {:induction false} ReturnAdds(cfg: Config, l: Locals, turn: PlannerTurn, results: seq<string>)
    requires turn == TurnOf(cfg, l.events) && |results| == |turn.toolCalls| && l.totalTokens == TokensOf(cfg, l.events)
    ensures var m, e := AssistantMessage(turn.content, turn.toolCalls), Returned(results);
      var told := if l.totalTokens >= cfg.policy.maxTokens then [UserMessage("token budget reached")] else [];
      && Shown(cfg, l.events, e) == [m] + ToolMessages(turn.toolCalls, results) + told
      && Stored(cfg, l.events, e) == DurableRound(cfg.reg, cfg.policy.terminalTool, m, results)
      && After(cfg, l, e) == l.(events := l.events + [e], msgs := l.msgs + Shown(cfg, l.events, e), newMsgs := l.newMsgs + Stored(cfg, l.events, e))
  {
    hide TurnOf, TokensOf, ToolMessages, DurableRound;
  }

  lemma {:induction false} PartsTold(cfg: Config, s: Start, l: Locals, handle: string, text: string, store: Store, tr: seq<Protocols.Run>)
    requires Core(cfg, s, l, handle, text, store, tr)
    ensures Prompts(cfg, l) && Record(cfg, l.newMsgs) && l.totalTokens == TokensOf(cfg, l.events)
  {
    CoreParts(cfg, s, l, handle, text, store, tr);
  }

  lemma {:induction false} FirstStays(cfg: Config, newMsgs: seq<Message>, round: seq<Message>)
    requires Record(cfg, newMsgs)
    ensures SameStart(newMsgs, newMsgs + round)
  {
  }

  lemma {:induction false} RoundFits(cfg: Config, l: Locals, turn: PlannerTurn, results: seq<string>, told: seq<Message>)
    requires Prompts(cfg, l) && turn.toolCalls != [] && ValidArguments(cfg.json, turn.toolCalls) && |results| == |turn.toolCalls|
    requires l.plannerCalls >= 1 && turn == cfg.env.turn(l.plannerCalls - 1)
    requires told == [] || (|told| == 1 && told[0].role == User)
    ensures Prompts(cfg, l.(msgs := l.msgs + ([AssistantMessage(turn.content, turn.toolCalls)] + ToolMessages(turn.toolCalls, results) + told)))
  {
    hide Prompts, ToolMessages;
    var m, tools := AssistantMessage(turn.content, turn.toolCalls), ToolMessages(turn.toolCalls, results);
    AppendRound(cfg, l, m, results, l.plannerCalls - 1);
    var l1 := l.(msgs := l.msgs + [m] + tools);
    assert l.msgs + ([m] + tools + []) == l1.msgs;
    if told != [] {
      AppendPlain(cfg, l1, told[0]);
      assert l.msgs + ([m] + tools + told) == l1.msgs + [told[0]];
    }
  }

  lemma {:induction false} RoundRecorded(cfg: Config, l: Locals, turn: PlannerTurn, results: seq<string>)
    requires Record(cfg, l.newMsgs) && |results| == |turn.toolCalls| && turn.toolCalls != [] && ValidArguments(cfg.json, turn.toolCalls)
    requires l.plannerCalls >= 1 && turn == cfg.env.turn(l.plannerCalls - 1)
    ensures Record(cfg, l.newMsgs + DurableRound(cfg.reg, cfg.policy.terminalTool, AssistantMessage(turn.content, turn.toolCalls), results))
  {
    hide DurableRound, InRound, Clean;
    var m := AssistantMessage(turn.content, turn.toolCalls);
    var round := DurableRound(cfg.reg, cfg.policy.terminalTool, m, results);
    RoundStoresItsOwn(cfg.reg, cfg.policy.terminalTool, m, results);
    assert m == Answered(cfg, l.plannerCalls - 1);
    forall i | 0 <= i < |round| ensures FromRound(cfg, round[i]) { assert round[i] in round; }
    if RecordExpected(cfg) {
      assert IdsPresent(cfg.env.turn(l.plannerCalls - 1).toolCalls);
      RoundIsClean(cfg.json, cfg.reg, cfg.policy.terminalTool, m, results);
      CleanAppend(cfg.json, cfg.policy.terminalTool, l.newMsgs, round);
    }
  }

  /** The draft is there: its event, and the step that is not counted. */
  lemma {:induction false} PrepareEvent(cfg: Config, s: Start, l: Locals, before: string, handle: string, text: string, ev: Draft.EvidenceWindow, store: Store, tr: seq<Protocols.Run>)
    requires Kept(cfg, s, l, "", before, store, tr) && handle != "" && Protocols.GatePasses(store) && Draft.Prepared(cfg.lower, ev, text)
    requires Follows(cfg, s.msgs, l.events, DraftPrepared(handle, text, ev))
    ensures var l' := l.(events := l.events + [DraftPrepared(handle, text, ev)], step := l.step - 1);
      Kept(cfg, s, l', handle, text, store, tr) && ActsOf(l'.events) == ActsOf(l.events)
  {
    hide Follows, Logged, Record, GatesTold, Protocol;
    var e := DraftPrepared(handle, text, ev);
    Quiet(cfg, l, e);
    LogStep(cfg, s, l, e);
    GatesNext(tr, l.events, e);
    AppendEvent(cfg, l, e);
    DraftNext(l.events, e);
    assert After(cfg, l, e) == l.(events := l.events + [e], step := l.step - 1);
    assert (l.events + [e])[|l.events|].DraftPrepared?;
    assert forall i :: 0 <= i < |l.events| ==> !l.events[i].DraftPrepared?;
  }

  /** Before a draft exists, the store may move on. */
  lemma {:induction false} StoreMoves(cfg: Config, s: Start, l: Locals, text: string, store: Store, tr: seq<Protocols.Run>, store': Store, tr': seq<Protocols.Run>)
    requires Kept(cfg, s, l, "", text, store, tr) && tr <= tr'
    ensures Kept(cfg, s, l, "", text, store', tr')
  {
    hide Logged, Prompts, Record, Frozen, DraftTold, GatesTold;
    GatesGrow(tr, tr', l.events);
  }

  /** The loop's invariant: what every step keeps, and the protocol state of the store. */
  ghost predicate StepInv(cfg: Config, l: Locals, handle: string, store: Store, log: seq<Entry>, tr: seq<Protocols.Run>) {
    && Traced(tr, ActsOf(l.events), store, log)
    && (if handle == "" then l.step >= 0 && InStep(tr, ActsOf(l.events), l.step + 1, []) else cfg.reg.hasPrepare)
  }

  /** A dispatched batch is on record; a rejected one leaves no trace but its results. */
  method RecordDispatch(cfg: Config, ghost s: Start, l0: Locals, turn: PlannerTurn, dispatched: bool, actions: seq<Protocols.Action>, tokens: nat, open: bool,
                        ghost text: string, ghost store: Store, ghost tr: seq<Protocols.Run>)
    returns (l: Locals)
    requires Kept(cfg, s, l0, "", text, store, tr) && InHand(cfg, l0, turn)
    requires l0.events[|l0.events| - 1].Planned? && Decide(cfg, l0.events) == UseTools
    requires dispatched <==> !MixesPreparation(turn.toolCalls)
    requires if dispatched then actions == (if IsPrepareOnly(turn.toolCalls) then [] else cfg.env.batch(l0.batches).actions) else actions == []
    requires BatchTokens(cfg, cfg.env.batch(l0.batches).prepare, turn.toolCalls, open, tokens) && GateTold(tr, |ActsOf(l0.events)|, open)
    ensures Kept(cfg, s, l, "", text, store, tr) && InHand(cfg, l, turn) && l.step == l0.step && l.newMsgs == l0.newMsgs && l.plannerCalls == l0.plannerCalls
    ensures Follows(cfg, s.msgs, l.events, Returned(ResultsOf(turn.toolCalls, cfg.env.batch(l0.batches))))
    ensures ActsOf(l.events) == ActsOf(l0.events) + WithinStep(actions)
    ensures if dispatched then l.events == l0.events + [Dispatched(actions, tokens, open)] && BatchOf(cfg, l.events) == cfg.env.batch(l0.batches) else l == l0
  {
    hide Core, Follows, TurnOf, BatchOf, ActsOf, Decide, BatchTokens, Count, MixesPreparation, WithinStep, GateTold;
    l := l0;
    if dispatched {
      BatchNumber(cfg, s, l, "", text, store, tr, StepEnded);
      MayDispatch(cfg, s.msgs, l.events, actions, tokens, open);
      DispatchNoted(cfg, s, l, turn, Dispatched(actions, tokens, open), text, store, tr);
      l := l.(events := l.events + [Dispatched(actions, tokens, open)], batches := l.batches + 1, totalTokens := l.totalTokens + tokens);
      ReturnFollows(cfg, s, l.events, turn, cfg.env.batch(l0.batches));
    } else {
      ReturnAloneFollows(cfg, s, l.events, turn, cfg.env.batch(l0.batches));
      NothingDone(l.events);
    }
  }

  lemma {:induction false} ReturnFollows(cfg: Config, s: Start, events: seq<Event>, turn: PlannerTurn, batch: Batch)
    requires events != [] && events[|events| - 1].Dispatched? && turn == TurnOf(cfg, events) && batch == BatchOf(cfg, events)
    requires !MixesPreparation(turn.toolCalls)
    ensures Follows(cfg, s.msgs, events, Returned(ResultsOf(turn.toolCalls, batch)))
  {
    hide Follows, TurnOf, BatchOf, MixesPreparation;
    MayReturn(cfg, s.msgs, events);
    assert ResultsOf(turn.toolCalls, batch) == seq(|turn.toolCalls|, i requires 0 <= i => BatchOf(cfg, events).result(i));
  }

  lemma {:induction false} ReturnAloneFollows(cfg: Config, s: Start, events: seq<Event>, turn: PlannerTurn, batch: Batch)
    requires events != [] && events[|events| - 1].Planned? && turn == TurnOf(cfg, events) && MixesPreparation(turn.toolCalls)
    requires Decide(cfg, events) == UseTools
    ensures Follows(cfg, s.msgs, events, Returned(ResultsOf(turn.toolCalls, batch)))
  {
    hide Follows, TurnOf, BatchOf, MixesPreparation, Decide;
    MayReturnAlone(cfg, s.msgs, events);
    assert ResultsOf(turn.toolCalls, batch) == seq(|turn.toolCalls|, i => "prepare_summary_draft must be called alone");
  }

  /** Dispatching a batch, as an event. */
  lemma {:induction false} DispatchNoted(cfg: Config, s: Start, l: Locals, turn: PlannerTurn, e: Event, text: string, store: Store, tr: seq<Protocols.Run>)
    requires Kept(cfg, s, l, "", text, store, tr) && InHand(cfg, l, turn) && Follows(cfg, s.msgs, l.events, e)
    requires e.Dispatched? && GateTold(tr, |ActsOf(l.events)|, e.open)
    ensures var l' := l.(events := l.events + [e], batches := l.batches + 1, totalTokens := l.totalTokens + e.tokens);
      && Kept(cfg, s, l', "", text, store, tr) && InHand(cfg, l', turn)
      && ActsOf(l'.events) == ActsOf(l.events) + WithinStep(e.actions)
      && BatchOf(cfg, l'.events) == cfg.env.batch(l.batches)
  {
    hide Core, Follows, TurnOf, ActsOf, Decide, Count, BatchTokens, WithinStep, GateTold;
    NoteQuiet(cfg, s, l, "", text, store, tr, e);
    SameTurn(cfg, l.events, e);
    BatchNumber(cfg, s, l, "", text, store, tr, e);
    assert After(cfg, l, e) == l.(events := l.events + [e], batches := l.batches + 1, totalTokens := l.totalTokens + e.tokens);
  }

  lemma {:induction false} BatchNumber(cfg: Config, s: Start, l: Locals, handle: string, text: string, store: Store, tr: seq<Protocols.Run>, e: Event)
    requires Core(cfg, s, l, handle, text, store, tr)
    ensures e.Dispatched? ==> BatchOf(cfg, l.events + [e]) == cfg.env.batch(l.batches)
    ensures l.batches == Count(l.events, Batches)
  {
    CoreParts(cfg, s, l, handle, text, store, tr);
    hide Core, Count;
    CountNext(l.events, e, Batches);
  }

  lemma {:induction false} NothingDone(events: seq<Event>)
    ensures ActsOf(events) == ActsOf(events) + WithinStep([])
  {
  }

  /** The bookkeeping after a batch: transcript and record, and the uncounted draft step. */
  method FinishBatch(cfg: Config, ghost s: Start, l0: Locals, turn: PlannerTurn, results: seq<string>, handle: string, text: string, ev: Draft.EvidenceWindow,
                     ghost before: string, ghost store: Store, ghost tr: seq<Protocols.Run>)
    returns (l: Locals)
    requires Kept(cfg, s, l0, "", before, store, tr) && InHand(cfg, l0, turn) && Follows(cfg, s.msgs, l0.events, Returned(results))
    requires turn.toolCalls != [] && ValidArguments(cfg.json, turn.toolCalls) && |results| == |turn.toolCalls|
    requires if WritesDraft(cfg, l0.events)
             then handle != "" && Protocols.GatePasses(store) && Draft.Prepared(cfg.lower, ev, text) && DraftWritten(cfg, l0.events, handle, text, ev)
             else handle == "" && text == before
    ensures Kept(cfg, s, l, handle, text, store, tr) && SameStart(l0.newMsgs, l.newMsgs) && ActsOf(l.events) == ActsOf(l0.events)
    ensures l.step == l0.step - (if handle != "" then 1 else 0) && Follows(cfg, s.msgs, l.events, StepEnded)
  {
    hide Core, Follows, TurnOf, ActsOf, ValidArguments, WritesDraft, Draft.Prepared;
    l := AppendBatch(cfg, s, l0, turn, results, before, store, tr);
    assert l.events == l0.events + [Returned(results)] && l.events[..|l.events| - 1] == l0.events;
    if handle != "" {
      SameBatch(cfg, l0.events, Returned(results), handle, text, ev);
      MayPrepare(cfg, s.msgs, l.events, handle, text, ev);
      PrepareEvent(cfg, s, l, before, handle, text, ev, store, tr);
      l := l.(events := l.events + [DraftPrepared(handle, text, ev)], step := l.step - 1);
    }
    MayEndStep(cfg, s.msgs, l.events);
  }

  lemma {:induction false} SameBatch(cfg: Config, events: seq<Event>, e: Event, handle: string, text: string, ev: Draft.EvidenceWindow)
    requires !e.Dispatched?
    ensures DraftWritten(cfg, events + [e], handle, text, ev) == DraftWritten(cfg, events, handle, text, ev)
  {
    hide Draft.Prepared, Draft.Written;
    CountNext(events, e, Batches);
  }

  /** The step of a turn that calls tools. Preparing the draft is not counted as a step. */
  method ToolStep(cfg: Config, ghost s: Start, l0: Locals, turn: PlannerTurn, store: SummaryHandleStore, draft: Draft.SummaryDraftState, ghost tr: seq<Protocols.Run>)
    returns (l: Locals, out: Option<Outcome>, ghost tr': seq<Protocols.Run>)
    requires Kept(cfg, s, l0, draft.handle, draft.text, store.State(), tr) && draft.handle == "" && draft.err == None && draft.tokens == 0
    requires InHand(cfg, l0, turn) && l0.events[|l0.events| - 1].Planned? && Decide(cfg, l0.events) == UseTools
    requires turn.toolCalls != [] && ValidArguments(cfg.json, turn.toolCalls) && l0.step >= 0
    requires store.Valid() && StepInv(cfg, l0, draft.handle, store.State(), store.log, tr)
    modifies store, draft
    ensures out.None? ==> Kept(cfg, s, l, draft.handle, draft.text, store.State(), tr') && SameStart(l0.newMsgs, l.newMsgs)
    ensures out.Some? ==> Core(cfg, s, l, "", old(draft.text), store.State(), tr') && l.plannerCalls == l0.plannerCalls && draft.handle == "" && draft.text == old(draft.text)
    ensures l.step == l0.step - (if draft.handle != "" then 1 else 0)
    ensures store.Valid() && Traced(tr', ActsOf(l.events), store.State(), store.log)
    ensures EndsStep(tr', ActsOf(l.events), l0.step + 1)
    ensures draft.handle != "" ==> cfg.reg.hasPrepare
    ensures out.Some? ==> out.value.RunError? && MayEnd(cfg, l.events, out.value)
    ensures out.None? ==> draft.err == None && draft.tokens == 0 && Follows(cfg, s.msgs, l.events, StepEnded)
  {
    hide Core, Follows, TurnOf, ActsOf, Decide, ValidArguments, Protocols.GatePasses, Draft.Prepared, BatchTokens, Protocols.Behaviour, Draft.Written, Draft.Rejected, Traced, EndsStep;
    ghost var before, storeBefore := draft.text, store.State();
    StepTraced(cfg, l0, store.State(), store.log, tr);
    Draft.GateOpen(store.State());
    var open := |store.mapFailures| == 0 && store.generation <= store.reducedGeneration;
    var results, dispatched, actions;
    results, dispatched, actions, tr' := RunTools(cfg, turn.toolCalls, l0.step + 1, l0.batches, store, draft, tr, ActsOf(l0.events));
    StoreMoves(cfg, s, l0, before, storeBefore, tr, store.State(), tr');
    GateStays(tr, tr', ActsOf(l0.events), open, storeBefore);
    l := RecordDispatch(cfg, s, l0, turn, dispatched, actions, draft.tokens, open, before, store.State(), tr');
    draft.tokens := 0;
    if draft.err.Some? {
      l := RejectDraft(cfg, s, l, turn, draft.err.value, before, store.State(), tr');
      return l, Some(RunError(DraftFailed(draft.err.value))), tr';
    }
    l := FinishBatch(cfg, s, l, turn, results, draft.handle, draft.text, cfg.env.batch(l0.batches).prepare.ev, before, store.State(), tr');
    out := None;
  }

  lemma {:induction false} StepTraced(cfg: Config, l: Locals, store: Store, log: seq<Entry>, tr: seq<Protocols.Run>)
    requires StepInv(cfg, l, "", store, log, tr)
    ensures Traced(tr, ActsOf(l.events), store, log) && InStep(tr, ActsOf(l.events), l.step + 1, [])
  {
  }

  lemma {:induction false} GateStays(tr: seq<Protocols.Run>, tr': seq<Protocols.Run>, acts: seq<Protocols.Action>, open: bool, store: Store)
    requires |acts| < |tr| && tr <= tr' && tr[|acts|].store == store && (open <==> Protocols.GatePasses(store))
    ensures GateTold(tr', |acts|, open)
  {
  }

  method RejectDraft(cfg: Config, ghost s: Start, l: Locals, turn: PlannerTurn, reason: Draft.Reason, ghost text: string, ghost store: Store, ghost tr: seq<Protocols.Run>)
    returns (l': Locals)
    requires Kept(cfg, s, l, "", text, store, tr) && WritesDraft(cfg, l.events) && DraftRefused(cfg, l.events, reason)
    ensures Core(cfg, s, l', "", text, store, tr) && MayEnd(cfg, l'.events, RunError(DraftFailed(reason)))
    ensures ActsOf(l'.events) == ActsOf(l.events) && l'.plannerCalls == l.plannerCalls && l'.step == l.step
  {
    hide Core, Follows, TurnOf, ActsOf, WritesDraft, DraftRefused;
    MayReject(cfg, s.msgs, l.events, reason);
    NoteQuiet(cfg, s, l, "", text, store, tr, DraftRejected(reason));
    l' := l.(events := l.events + [DraftRejected(reason)]);
    assert l' == After(cfg, l, DraftRejected(reason));
  }

  // ----- The run -----

  /** Every call of the step has returned: the step is counted and its end is on record. */
  method EndStep(cfg: Config, ghost s: Start, l: Locals, ghost handle: string, ghost text: string, ghost store: Store, ghost log: seq<Entry>, ghost tr: seq<Protocols.Run>)
    returns (l': Locals, ghost tr': seq<Protocols.Run>)
    requires Kept(cfg, s, l, handle, text, store, tr) && l.step >= -1 && Follows(cfg, s.msgs, l.events, StepEnded)
    requires Traced(tr, ActsOf(l.events), store, log) && (if handle == "" then l.step >= 0 && EndsStep(tr, ActsOf(l.events), l.step + 1) else cfg.reg.hasPrepare)
    ensures Core(cfg, s, l', handle, text, store, tr') && Budget(l', handle)
    ensures StepInv(cfg, l', handle, store, log, tr')
    ensures l'.step == l.step + 1 && l'.newMsgs == l.newMsgs && l'.events == l.events + [StepEnded]
  {
    hide Core, Follows, ActsOf;
    NoteQuiet(cfg, s, l, handle, text, store, tr, StepEnded);
    l' := l.(step := l.step + 1, events := l.events + [StepEnded]);
    assert l' == After(cfg, l, StepEnded);
    ghost var acts := ActsOf(l.events);
    ghost var run := tr[|acts|].(step := tr[|acts|].step + 1, resolved := []);
    TraceGrows(tr, acts, Protocols.NextStep, run);
    tr' := tr + [run];
    CoreGrows(cfg, s, l', handle, text, store, tr, tr');
  }

  lemma {:induction false} CoreGrows(cfg: Config, s: Start, l: Locals, handle: string, text: string, store: Store, tr: seq<Protocols.Run>, tr': seq<Protocols.Run>)
    requires Core(cfg, s, l, handle, text, store, tr) && tr <= tr'
    ensures Core(cfg, s, l, handle, text, store, tr')
  {
    hide Logged, Prompts, Record, DraftInv, GatesTold;
    GatesGrow(tr, tr', l.events);
  }

  /** What a delivered answer leaves behind: the user's message, the rounds of the run,
      the answer; nothing for the next turn to repair. */
  ghost predicate StoredRun(cfg: Config, userInput: string, reply: string, newMsgs: seq<Message>) {
    && |newMsgs| >= 2
    && newMsgs[0] == UserMessage(userInput) && newMsgs[|newMsgs| - 1] == AssistantMessage(reply, [])
    && (forall i :: 1 <= i < |newMsgs| - 1 ==> FromRound(cfg, newMsgs[i]))
    && CleanRecord(cfg, newMsgs)
  }

  lemma {:induction false} AnswerIsStored(cfg: Config, userInput: string, reply: string, newMsgs: seq<Message>)
    requires Record(cfg, newMsgs) && newMsgs[0] == UserMessage(userInput)
    ensures StoredRun(cfg, userInput, reply, newMsgs + [AssistantMessage(reply, [])])
  {
    RecordAppend(cfg, newMsgs, AssistantMessage(reply, []));
  }

  /** The loop's invariant. */
  ghost predicate LoopInv(cfg: Config, s: Start, userInput: string, l: Locals, handle: string, text: string, store: Store, log: seq<Entry>, tr: seq<Protocols.Run>) {
    && Core(cfg, s, l, handle, text, store, tr) && Budget(l, handle)
    && StepInv(cfg, l, handle, store, log, tr)
    && l.newMsgs != [] && l.newMsgs[0] == UserMessage(userInput)
    && 0 <= l.step <= StepBound(cfg)
    && (l.events == [] || l.events[|l.events| - 1].StepEnded?)
  }

  function StepBound(cfg: Config): nat {
    if cfg.policy.maxSteps > 0 then cfg.policy.maxSteps else 0
  }

  /** What the events of a run tell on every way out. */
  ghost predicate Told(cfg: Config, s: Start, events: seq<Event>, text: string, tr: seq<Protocols.Run>) {
    && Count(events, Plans) <= StepBound(cfg) + 5
    && Frozen(events)
    && (forall i :: 0 <= i < |events| && events[i].DraftPrepared? ==> events[i].text == text && Draft.Prepared(cfg.lower, events[i].ev, text))
    && (PromptsExpected(cfg) ==> PromptsCorrect(cfg, events))
    && Protocols.Behaviour(tr, ActsOf(events))
    && Ordered(cfg, s.msgs, events) && GatesTold(tr, events)
  }

  /** How a run ends: as its events allow; an answer with what it leaves behind, or an error
      and nothing stored. */
  ghost predicate Ended(cfg: Config, s: Start, userInput: string, out: Outcome, newMsgs: seq<Message>, events: seq<Event>, text: string, tr: seq<Protocols.Run>)
    requires |tr| == |ActsOf(events)| + 1
  {
    && MayEnd(cfg, events, out)
    && if out.Answer? then
         && Complete(tr[|ActsOf(events)|]) && SubmitsDraft(cfg, out, events, text)
         && (exists handle :: Delivered(cfg, out, handle, text))
         && StoredRun(cfg, userInput, out.reply, newMsgs)
         && newMsgs == RecordOf(cfg, s.user, events) + [AssistantMessage(out.reply, [])]
       else newMsgs == []
  }

  lemma {:induction false} RunTold(cfg: Config, s: Start, l: Locals, handle: string, text: string, store: Store, log: seq<Entry>, tr: seq<Protocols.Run>)
    requires Core(cfg, s, l, handle, text, store, tr) && l.plannerCalls <= StepBound(cfg) + 5
    requires Traced(tr, ActsOf(l.events), store, log)
    ensures Told(cfg, s, l.events, text, tr) && |tr| == |ActsOf(l.events)| + 1
  {
    CoreParts(cfg, s, l, handle, text, store, tr);
    hide Frozen, PromptsCorrect, Ordered, GatesTold, Count, Draft.Prepared, Record;
  }

  /** A turn that answers or submits, in the loop. */
  method AnswerStep(cfg: Config, ghost s: Start, userInput: string, l0: Locals, turn: PlannerTurn, store: SummaryHandleStore, draft: Draft.SummaryDraftState, ghost tr: seq<Protocols.Run>)
    returns (l: Locals, out: Option<Outcome>, newMsgs: seq<Message>)
    requires Kept(cfg, s, l0, draft.handle, draft.text, store.State(), tr) && InHand(cfg, l0, turn) && 0 <= l0.step < StepBound(cfg)
    requires l0.events[|l0.events| - 1].Planned? && Decide(cfg, l0.events) == Attempt
    requires turn.toolCalls == [] || IsTerminalOnly(cfg, turn.toolCalls)
    requires ValidArguments(cfg.json, turn.toolCalls)
    requires Traced(tr, ActsOf(l0.events), store.State(), store.log) && l0.newMsgs != [] && l0.newMsgs[0] == UserMessage(userInput)
    ensures Kept(cfg, s, l, draft.handle, draft.text, store.State(), tr) && SameRun(l0, l)
    ensures out.None? ==> Follows(cfg, s.msgs, l.events, StepEnded)
    ensures out.Some? ==> Told(cfg, s, l.events, draft.text, tr) && |tr| == |ActsOf(l.events)| + 1
                          && Ended(cfg, s, userInput, out.value, newMsgs, l.events, draft.text, tr)
  {
    hide Core, SubmitsDraft, StoredRun, Delivered, Complete, Told, MayEnd, Follows, Decide, TurnOf, Protocols.GatePasses, Protocols.Behaviour;
    l, out := FinalAttempt(cfg, s, l0, turn, store, draft, tr);
    newMsgs := [];
    if out.None? {
      MayEndStep(cfg, s.msgs, l.events);
      return;
    }
    RunTold(cfg, s, l, draft.handle, draft.text, store.State(), store.log, tr);
    if out.value.Answer? {
      CoreParts(cfg, s, l, draft.handle, draft.text, store.State(), tr);
      AnswerIsStored(cfg, userInput, out.value.reply, l.newMsgs);
      GateTells(tr, ActsOf(l.events)) by {
        assert Protocols.Behaviour(tr, ActsOf(l.events));
      }
      newMsgs := l.newMsgs + [AssistantMessage(out.value.reply, [])];
    }
  }

  /** A turn counts a step or prepares the draft. */
  predicate Progress(h: string, step: int, h': string, step': int) {
    (h == "" && h' != "") || ((h == "" <==> h' == "") && step' == step + 1)
  }

  /** One turn of the loop. */
  method RunStep(cfg: Config, ghost s: Start, userInput: string, l0: Locals, store: SummaryHandleStore, draft: Draft.SummaryDraftState, ghost tr: seq<Protocols.Run>)
    returns (l: Locals, out: Option<Outcome>, newMsgs: seq<Message>, ghost tr': seq<Protocols.Run>)
    requires store.Valid() && draft.err == None && draft.tokens == 0 && l0.step < cfg.policy.maxSteps
    requires LoopInv(cfg, s, userInput, l0, draft.handle, draft.text, store.State(), store.log, tr)
    modifies store, draft
    ensures out.None? ==> store.Valid() && draft.err == None && draft.tokens == 0
                          && LoopInv(cfg, s, userInput, l, draft.handle, draft.text, store.State(), store.log, tr')
                          && Progress(old(draft.handle), l0.step, draft.handle, l.step)
    ensures out.Some? ==> Told(cfg, s, l.events, draft.text, tr') && |tr'| == |ActsOf(l.events)| + 1
                          && Ended(cfg, s, userInput, out.value, newMsgs, l.events, draft.text, tr')
  {
    hide Core, Told, Ended, MayEnd, Follows, Decide, TurnOf, Protocols.GatePasses, Protocols.Behaviour, ValidArguments, Delivered, SubmitsDraft, ActsOf, IsTerminalOnly, Count, StepsOf;
    LoopPlans(cfg, s, userInput, l0, draft.handle, draft.text, store.State(), store.log, tr);
    var turn, err;
    l, turn, err := PlanTurn(cfg, s, l0, draft.handle, draft.text, store.State(), tr);
    tr', newMsgs := tr, [];
    if err.Some? {
      RunTold(cfg, s, l, draft.handle, draft.text, store.State(), store.log, tr);
      ErrorEnds(cfg, s, userInput, err.value, l.events, draft.text, tr);
      return l, Some(RunError(err.value)), [], tr;
    }
    if turn.toolCalls == [] || IsTerminalOnly(cfg, turn.toolCalls) {
      l, out, newMsgs := AnswerStep(cfg, s, userInput, l, turn, store, draft, tr);
      if out.Some? {
        return;
      }
    } else {
      l, out, tr' := ToolStep(cfg, s, l, turn, store, draft, tr);
      if out.Some? {
        RunTold(cfg, s, l, "", draft.text, store.State(), store.log, tr');
        ErrorEnds(cfg, s, userInput, out.value.reason, l.events, draft.text, tr');
        return;
      }
    }
    l, tr' := EndStep(cfg, s, l, draft.handle, draft.text, store.State(), store.log, tr');
  }

  /** At the top of the loop the planner is called. */
  lemma {:induction false} LoopPlans(cfg: Config, s: Start, userInput: string, l: Locals, handle: string, text: string, store: Store, log: seq<Entry>, tr: seq<Protocols.Run>)
    requires LoopInv(cfg, s, userInput, l, handle, text, store, log, tr) && l.step < cfg.policy.maxSteps
    ensures Follows(cfg, s.msgs, l.events, Planned(l.msgs))
  {
    hide Core, StepInv, Follows, Count, TranscriptOf;
    CoreParts(cfg, s, l, handle, text, store, tr);
    MayPlan(cfg, s.msgs, l.events);
  }

  lemma {:induction false} ErrorEnds(cfg: Config, s: Start, userInput: string, reason: Failure, events: seq<Event>, text: string, tr: seq<Protocols.Run>)
    requires |tr| == |ActsOf(events)| + 1 && MayEnd(cfg, events, RunError(reason))
    ensures Ended(cfg, s, userInput, RunError(reason), [], events, text, tr)
  {
    hide MayEnd;
  }

  /** What a run starts from: the system prompt, the cleaned history, the user's message. */
  function StartOf(cfg: Config, history: seq<Message>, system: string, userInput: string): Start {
    Start([Message(Other("system"), system, [], "", "")] + PlannerHistory(cfg.json, history, cfg.policy.terminalTool, cfg.reg.hasPrepare) + [UserMessage(userInput)],
          UserMessage(userInput))
  }

  /** The whole run. It answers if and only if its last attempt was acceptable, with that
      attempt's answer, and every error has its cause. On every way out the events follow one
      another as the rules say, the model was asked at most MaxSteps + 5 times, a prepared
      draft froze the run, every prompt was protocol-correct, and the dispatched store
      operations are a run `tr` of the Map/Reduce protocol; an answer left no Map failure and
      no unreduced Map result, what was submitted is the prepared draft, and what is stored
      replays unchanged. */
  method RunWithHistoryOutcome(cfg: Config, history: seq<Message>, system: string, userInput: string, prefix: string)
    returns (out: Outcome, newMsgs: seq<Message>, events: seq<Event>, draftText: string, ghost tr: seq<Protocols.Run>)
    ensures out.Answer? <==> exists i: nat :: LastAttempt(events, i) && Acceptable(cfg, events, i)
    ensures forall i: nat :: Acceptable(cfg, events, i) ==> LastAttempt(events, i) && out == AnswerAt(cfg, events, i)
    ensures out.RunError? ==> Cause(cfg, out.reason, events)
    ensures GatesTold(tr, events)
    ensures Ordered(cfg, StartOf(cfg, history, system, userInput).msgs, events) && MayEnd(cfg, events, out)
    ensures newMsgs == if out.Answer? then RecordOf(cfg, UserMessage(userInput), events) + [AssistantMessage(out.reply, [])] else []
    ensures Count(events, Plans) <= (if cfg.policy.maxSteps > 0 then cfg.policy.maxSteps else 0) + 5
    ensures Frozen(events)
    ensures forall i :: 0 <= i < |events| && events[i].DraftPrepared? ==> events[i].text == draftText && Draft.Prepared(cfg.lower, events[i].ev, draftText)
    ensures PromptsExpected(cfg) ==> PromptsCorrect(cfg, events)
    ensures Protocols.Behaviour(tr, ActsOf(events))
    ensures out.Answer? ==> Complete(tr[|ActsOf(events)|]) && exists handle :: Delivered(cfg, out, handle, draftText)
    ensures out.Answer? ==> SubmitsDraft(cfg, out, events, draftText)
    ensures out.Answer? ==> StoredRun(cfg, userInput, out.reply, newMsgs)
  {
    hide SubmitsDraft, StoredRun, Delivered, Frozen, PromptsCorrect, Draft.Prepared, LoopInv, Complete, Protocols.Behaviour, MayEnd, Ordered, GatesTold, Acceptable, AnswerAt, LastAttempt, Cause, Count, ActsOf;
    var store := new SummaryHandleStore(prefix);
    var draft := new Draft.SummaryDraftState();
    ghost var s := StartOf(cfg, history, system, userInput);
    var l;
    l, tr := StartRun(cfg, history, system, userInput, prefix);
    while l.step < cfg.policy.maxSteps
      invariant fresh(store) && fresh(draft) && store.Valid() && draft.err == None && draft.tokens == 0
      invariant LoopInv(cfg, s, userInput, l, draft.handle, draft.text, store.State(), store.log, tr)
      decreases draft.handle == "", cfg.policy.maxSteps - l.step
    {
      var done, stored;
      l, done, stored, tr := RunStep(cfg, s, userInput, l, store, draft, tr);
      if done.Some? {
        OutcomeTold(cfg, s, l.events, done.value);
        return done.value, stored, l.events, draft.text, tr;
      }
    }
    LoopTold(cfg, s, userInput, l, draft.handle, draft.text, store.State(), store.log, tr);
    OutcomeTold(cfg, s, l.events, RunError(MaxStepsExceeded));
    return RunError(MaxStepsExceeded), [], l.events, draft.text, tr;
  }

  lemma {:induction false} OutcomeTold(cfg: Config, s: Start, events: seq<Event>, out: Outcome)
    requires Ordered(cfg, s.msgs, events) && MayEnd(cfg, events, out)
    ensures out.Answer? <==> exists i: nat :: LastAttempt(events, i) && Acceptable(cfg, events, i)
    ensures forall i: nat :: Acceptable(cfg, events, i) ==> LastAttempt(events, i) && out == AnswerAt(cfg, events, i)
    ensures out.RunError? ==> Cause(cfg, out.reason, events)
  {
    hide Ordered, MayEnd, LastAttempt, Acceptable, AnswerAt, Cause;
    AnswersIff(cfg, s.msgs, events, out);
    if out.RunError? {
      ErrorsHaveCauses(cfg, s.msgs, events, out);
    }
  }

  lemma {:induction false} LoopTold(cfg: Config, s: Start, userInput: string, l: Locals, handle: string, text: string, store: Store, log: seq<Entry>, tr: seq<Protocols.Run>)
    requires LoopInv(cfg, s, userInput, l, handle, text, store, log, tr) && l.step >= cfg.policy.maxSteps
    ensures Told(cfg, s, l.events, text, tr) && |tr| == |ActsOf(l.events)| + 1
    ensures MayEnd(cfg, l.events, RunError(MaxStepsExceeded))
  {
    hide Core, Told, ActsOf, MayEnd, Traced, InStep;
    RunTold(cfg, s, l, handle, text, store, log, tr);
    StepsUsed(cfg, s, l, handle, text, store, tr);
  }

  lemma {:induction false} StepsUsed(cfg: Config, s: Start, l: Locals, handle: string, text: string, store: Store, tr: seq<Protocols.Run>)
    requires Core(cfg, s, l, handle, text, store, tr) && l.step >= cfg.policy.maxSteps
    requires l.events == [] || l.events[|l.events| - 1].StepEnded?
    ensures MayEnd(cfg, l.events, RunError(MaxStepsExceeded))
  {
    CoreParts(cfg, s, l, handle, text, store, tr);
    hide Core, StepsOf, TurnOf, Decide;
    NoSteps(l.events);
  }

  lemma {:induction false} NoSteps(events: seq<Event>)
    ensures events == [] ==> StepsOf(events) == 0
  {
  }

  /** No Map failure is pending, and nothing was mapped or one Reduce took effect that was
      fed every Map result of the run exactly once. */
  ghost predicate Complete(r: Protocols.Run) {
    && r.store.mapFailures == map[]
    && (r.log == [] || exists k :: 0 <= k < |r.reduces| && multiset(r.reduces[k].entries) == multiset(r.log))
  }

  lemma {:induction false} GateTells(tr: seq<Protocols.Run>, acts: seq<Protocols.Action>)
    requires Protocols.Behaviour(tr, acts) && Protocols.GatePasses(tr[|acts|].store)
    ensures Complete(tr[|acts|])
  {
    Protocols.AcceptedAnswerIsComplete(tr, acts);
  }

  /** The initial transcript: system prompt, cleaned history, user message. */
  method StartRun(cfg: Config, history: seq<Message>, system: string, userInput: string, prefix: string)
    returns (l: Locals, ghost tr: seq<Protocols.Run>)
    ensures LoopInv(cfg, StartOf(cfg, history, system, userInput), userInput, l, "", "", Store(prefix, 0, 0, 0, 0, map[], map[]), [], tr) && l.step == 0 && l.events == []
  {
    hide PlannerHistory, Protocol, Clean;
    var past := PlannerHistory(cfg.json, history, cfg.policy.terminalTool, cfg.reg.hasPrepare);
    var user := UserMessage(userInput);
    var first := Message(Other("system"), system, [], "", "");
    l := Locals(0, [first] + past + [user], [user], 0, 0, 0, 0, 0, 0, []);
    if PromptsExpected(cfg) {
      PlannerHistoryProtocol(cfg.json, history, cfg.policy.terminalTool, cfg.reg.hasPrepare);
      PlainIsClean(cfg.json, cfg.policy.terminalTool, first);
      PlainIsClean(cfg.json, cfg.policy.terminalTool, user);
      ProtocolAppend(cfg.json, [first], past);
      ProtocolAppend(cfg.json, [first] + past, [user]);
    }
    PlainIsClean(cfg.json, cfg.policy.terminalTool, user);
    tr := [Protocols.Run(Store(prefix, 0, 0, 0, 0, map[], map[]), [], 1, [], [])];
  }
}
