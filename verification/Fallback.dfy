/** The cross-model fallback runner (llmfallback/fallback.go): per-model retries, model
    switches, and the events reported to the observer. */
module Fallback {
  import opened GoText

  datatype Outcome = Success | RetrySameModel | TryNextModel | Terminal

  /** Errors and what they wrap, as far as errors.As can see. */
  datatype Err =
    | Nil
    | Plain(message: string)
    | CtxErr
    | Starved(starvedAfter: nat, cause: Err)    // budgetStarvedErr
    | Denied(deniedAfter: nat, cause: Err)      // deniedErr
    | Exhausted(attempts: nat, cause: Err)      // "model failed after n attempt(s): %w"
    | AllFailed(models: nat, cause: Err)        // "all n model(s) failed: %w"

  function ClassifyStatus(code: int): Outcome {
    if code < 400 then Success
    else if code == 429 || code >= 500 then RetrySameModel
    else if code == 403 then TryNextModel
    else Terminal
  }

  function ClassifyNonOKStatus(code: int): Outcome {
    if code >= 400 then ClassifyStatus(code) else Terminal
  }

  /** errors.As for the two marker types: the outermost match. */
  function AsStarved(e: Err): Option<nat> {
    match e
    case Nil => None
    case Plain(_) => None
    case CtxErr => None
    case Starved(n, _) => Some(n)
    case Denied(_, c) => AsStarved(c)
    case Exhausted(_, c) => AsStarved(c)
    case AllFailed(_, c) => AsStarved(c)
  }

  function AsDenied(e: Err): Option<nat> {
    match e
    case Nil => None
    case Plain(_) => None
    case CtxErr => None
    case Starved(_, c) => AsDenied(c)
    case Denied(n, _) => Some(n)
    case Exhausted(_, c) => AsDenied(c)
    case AllFailed(_, c) => AsDenied(c)
  }

  datatype Reason = BudgetStarved | CredentialDenied | RetriesExhausted

  function ReasonFor(e: Err): Reason {
    if e == Nil then RetriesExhausted
    else if AsStarved(e).Some? then BudgetStarved
    else if AsDenied(e).Some? then CredentialDenied
    else RetriesExhausted
  }

  function AttemptsSpent(e: Err, maxAttempts: nat): nat {
    if AsStarved(e).Some? then AsStarved(e).value
    else if AsDenied(e).Some? then AsDenied(e).value
    else maxAttempts
  }

  datatype AttemptResult<T> = AttemptResult(val: T, outcome: Outcome, err: Err)

  /** What the upstream does on the n-th attempt (from 1) at the model with this index. */
  type Upstream<!T> = (nat, nat) -> AttemptResult<T>

  datatype Event =
    | AttemptEvent(position: nat, attempt: nat, outcome: Outcome)
    | SwitchEvent(from: nat, reason: Reason, attempts: nat)
    | ResultEvent(switches: nat, ok: bool)

  class Context {
    var dead: bool

    constructor ()
      ensures !dead
    {
      dead := false;
    }

    /** Time passes: a live context may be cancelled or run out, a dead one stays dead. */
    method Poll()
      modifies this
      ensures old(dead) ==> dead
    {
      if !dead {
        var ended: bool := *;
        dead := ended;
      }
    }
  }

  class Observer {
    var events: seq<Event>

    constructor ()
      ensures events == []
    {
      events := [];
    }

    method Observe(e: Event)
      modifies this
      ensures events == old(events) + [e]
    {
      events := events + [e];
    }
  }

  // ----- What a correct event stream is, as a monitor -----

  /** Where a run stands: the model in use, its attempts so far, whether an attempt ended
      the run or the model, the switches so far, whether the result was reported; `good`
      is false once a rule is broken, `exact` once a switch misreports its attempts. */
  datatype Monitor = Monitor(
    position: nat,
    attempts: nat,
    ended: bool,
    abandoned: bool,
    switches: nat,
    reported: bool,
    good: bool,
    exact: bool)

  function Step(m: Monitor, e: Event, models: nat, maxAttempts: nat): Monitor {
    match e
    case AttemptEvent(position, attempt, outcome) =>
      m.(attempts := m.attempts + 1,
         ended := outcome == Success || outcome == Terminal,
         abandoned := outcome == TryNextModel,
         good := m.good && !m.reported && !m.ended && !m.abandoned
                 && position == m.position < models && attempt == m.attempts + 1 <= maxAttempts)
    case SwitchEvent(from, reason, attempts) =>
      m.(position := m.position + 1, attempts := 0, abandoned := false, switches := m.switches + 1,
         good := m.good && !m.reported && !m.ended && from == m.position && m.position + 1 < models,
         exact := m.exact && attempts == m.attempts)
    case ResultEvent(switches, ok) =>
      m.(reported := true, good := m.good && !m.reported && switches == m.switches && (ok ==> m.ended))
  }

  function Observed(events: seq<Event>, models: nat, maxAttempts: nat): Monitor {
    if events == [] then Monitor(0, 0, false, false, 0, false, true, true)
    else Step(Observed(events[..|events| - 1], models, maxAttempts), events[|events| - 1], models, maxAttempts)
  }

  lemma {:induction false} ObservedAppend(events: seq<Event>, e: Event, models: nat, maxAttempts: nat)
    ensures Observed(events + [e], models, maxAttempts) == Step(Observed(events, models, maxAttempts), e, models, maxAttempts)
  {
    assert (events + [e])[..|events|] == events;
  }

  /** An attempt error that carries no marker of a nested run. */
  predicate Unmarked(e: Err) {
    AsStarved(e).None? && AsDenied(e).None?
  }

  ghost predicate AllUnmarked<T(!new)>(up: Upstream<T>) {
    forall p, n :: Unmarked(up(p, n).err)
  }

  predicate Attempts(e: Event) {
    e.AttemptEvent?
  }

  predicate Switches(e: Event) {
    e.SwitchEvent?
  }

  /** Every reported attempt is the upstream's. */
  ghost predicate Truthful<T>(up: Upstream<T>, events: seq<Event>) {
    forall i :: 0 <= i < |events| && Attempts(events[i]) ==> events[i].outcome == up(events[i].position, events[i].attempt).outcome
  }

  /** runModel's result: how the model was left. */
  datatype ModelEnd<T> = ModelEnd(val: T, outcome: Outcome, err: Err)

  /** An attempt's error lets a switch after it tell the attempts made: it brings no other
      run's marker with a different count. */
  predicate TellsTruth(outcome: Outcome, err: Err, n: nat, maxAttempts: nat) {
    match outcome
    case TryNextModel => AsStarved(err) in {None, Some(n)}
    case RetrySameModel =>
      n == maxAttempts ==> AsStarved(err) == Some(n) || (AsStarved(err).None? && AsDenied(err) in {None, Some(n)})
    case _ => true
  }

  ghost predicate Told<T>(up: Upstream<T>, m: Monitor, maxAttempts: nat) {
    TellsTruth(up(m.position, m.attempts).outcome, up(m.position, m.attempts).err, m.attempts, maxAttempts)
  }

  /** The last attempt before every switch tells the truth. */
  ghost predicate AllTold<T>(up: Upstream<T>, events: seq<Event>, models: nat, maxAttempts: nat) {
    forall k :: 0 <= k < |events| && Switches(events[k]) ==> Told(up, Observed(events[..k], models, maxAttempts), maxAttempts)
  }

  lemma {:induction false} AllToldAppend<T>(up: Upstream<T>, events: seq<Event>, e: Event, models: nat, maxAttempts: nat)
    ensures AllTold(up, events + [e], models, maxAttempts)
       <==> AllTold(up, events, models, maxAttempts) && (Switches(e) ==> Told(up, Observed(events, models, maxAttempts), maxAttempts))
  {
    var after := events + [e];
    forall k | 0 <= k <= |events| ensures after[..k] == events[..k] {}
    assert events[..|events|] == events;
    if AllTold(up, after, models, maxAttempts) {
      forall k | 0 <= k < |events| && Switches(events[k]) ensures Told(up, Observed(events[..k], models, maxAttempts), maxAttempts) {
        assert after[k] == events[k];
      }
      assert after[|events|] == e;
    }
  }

  /** The condition on the upstream alone: whatever attempt comes last, its error lets the
      switch tell the truth. */
  ghost predicate TellsAlways<T(!new)>(up: Upstream<T>, maxAttempts: nat) {
    forall p, n :: TellsTruth(up(p, n).outcome, up(p, n).err, n, maxAttempts)
  }

  lemma {:induction false} AlwaysTold<T(!new)>(up: Upstream<T>, events: seq<Event>, models: nat, maxAttempts: nat)
    requires TellsAlways(up, maxAttempts)
    ensures AllTold(up, events, models, maxAttempts)
  {
    forall k | 0 <= k < |events| && Switches(events[k]) ensures Told(up, Observed(events[..k], models, maxAttempts), maxAttempts) {
      var m := Observed(events[..k], models, maxAttempts);
      assert TellsTruth(up(m.position, m.attempts).outcome, up(m.position, m.attempts).err, m.attempts, maxAttempts);
    }
  }

  /** The simple case: attempt errors without any nested run's marker. */
  lemma {:induction false} UnmarkedTells<T(!new)>(up: Upstream<T>, maxAttempts: nat)
    requires AllUnmarked(up)
    ensures TellsAlways(up, maxAttempts)
  {
    forall p, n ensures TellsTruth(up(p, n).outcome, up(p, n).err, n, maxAttempts) {
      assert Unmarked(up(p, n).err);
    }
  }

  /** Between two attempts on one model. */
  predicate Trying(m: Monitor, position: nat, attempts: nat) {
    && m.good && !m.reported && !m.ended && !m.abandoned
    && m.position == m.switches == position && m.attempts == attempts
  }

  /** After the last attempt on a model: whether it ended the run. */
  predicate Left(m: Monitor, position: nat, ended: bool) {
    m.good && !m.reported && m.ended == ended && m.position == m.switches == position
  }

  /** The run's value and error are those of its last attempt. */
  ghost predicate EndedWith<T>(up: Upstream<T>, m: Monitor, val: T, err: Err) {
    m.ended && m.attempts >= 1 && val == up(m.position, m.attempts).val && err == up(m.position, m.attempts).err
  }

  /** Whether the last attempt counts as a success: an error beside a success does not. */
  ghost predicate Succeeded<T>(up: Upstream<T>, m: Monitor) {
    m.ended && m.attempts >= 1 && up(m.position, m.attempts).outcome == Success && up(m.position, m.attempts).err == Nil
  }

  /** A model is left for good reason: it asked for the next one, or its attempts are used up. */
  predicate UsedUp(m: Monitor, maxAttempts: nat) {
    m.abandoned || m.attempts == maxAttempts
  }

  lemma {:induction false} AttemptStep<T>(up: Upstream<T>, events: seq<Event>, position: nat, a: nat, models: nat, maxAttempts: nat)
    requires position < models && a < maxAttempts && Truthful(up, events)
    requires Trying(Observed(events, models, maxAttempts), position, a)
    ensures var o := up(position, a + 1).outcome;
      var after := events + [AttemptEvent(position, a + 1, o)];
      var m := Observed(after, models, maxAttempts);
      && Truthful(up, after)
      && m.exact == Observed(events, models, maxAttempts).exact
      && m.attempts == a + 1
      && (o == RetrySameModel ==> Trying(m, position, a + 1))
      && m.abandoned == (o == TryNextModel)
      && (AllTold(up, after, models, maxAttempts) <==> AllTold(up, events, models, maxAttempts))
      && Left(m, position, o == Success || o == Terminal)
  {
    ObservedAppend(events, AttemptEvent(position, a + 1, up(position, a + 1).outcome), models, maxAttempts);
    AllToldAppend(up, events, AttemptEvent(position, a + 1, up(position, a + 1).outcome), models, maxAttempts);
  }

  /** How runModel leaves the event stream. */
  ghost predicate ModelDone<T(!new)>(up: Upstream<T>, zero: T, m: Monitor, position: nat, maxAttempts: nat, hasNext: bool, dead: bool, r: ModelEnd<T>) {
    if r.outcome == TryNextModel then
      && Left(m, position, false) && r.val == zero && r.err != Nil
      && (dead || hasNext || UsedUp(m, maxAttempts))
      && (dead || (AttemptsSpent(r.err, maxAttempts) == m.attempts <==> Told(up, m, maxAttempts)))
    else
      && r.outcome != RetrySameModel && Left(m, position, true) && EndedWith(up, m, r.val, r.err)
      && (r.outcome == Success <==> Succeeded(up, m))
  }

  /** When exactly the count read from the error of an abandoned model is the count made:
      after a refused credential, and after retries (cut short by the deadline guard, or
      used up). */
  lemma {:induction false} SpentAfterDenial(n: nat, e: Err, maxAttempts: nat)
    ensures AttemptsSpent(Denied(n, e), maxAttempts) == n <==> TellsTruth(TryNextModel, e, n, maxAttempts)
  {
  }

  lemma {:induction false} SpentAfterRetry(n: nat, e: Err, maxAttempts: nat)
    requires n <= maxAttempts
    ensures n < maxAttempts ==> TellsTruth(RetrySameModel, e, n, maxAttempts)
    ensures AttemptsSpent(Starved(n, e), maxAttempts) == n
    ensures n == maxAttempts ==> (AttemptsSpent(Exhausted(n, e), maxAttempts) == n <==> TellsTruth(RetrySameModel, e, n, maxAttempts))
  {
  }

  method RunModel<T(!new)>(ctx: Context, up: Upstream<T>, zero: T, position: nat, models: nat, maxAttempts: nat, hasNext: bool, obs: Observer)
    returns (r: ModelEnd<T>)
    requires maxAttempts >= 1 && position < models
    requires Trying(Observed(obs.events, models, maxAttempts), position, 0)
    requires Truthful(up, obs.events)
    modifies ctx, obs
    ensures old(ctx.dead) ==> ctx.dead
    ensures Truthful(up, obs.events)
    ensures Observed(obs.events, models, maxAttempts).exact == Observed(old(obs.events), models, maxAttempts).exact
    ensures AllTold(up, obs.events, models, maxAttempts) == AllTold(up, old(obs.events), models, maxAttempts)
    ensures ModelDone(up, zero, Observed(obs.events, models, maxAttempts), position, maxAttempts, hasNext, ctx.dead, r)
  {
    hide Observed, Step, Truthful, AllTold, AsStarved, AsDenied, AttemptsSpent, TellsTruth;
    var lastErr := Nil;
    var a := 0;
    while a < maxAttempts
      invariant 0 <= a <= maxAttempts
      invariant old(ctx.dead) ==> ctx.dead
      invariant Truthful(up, obs.events)
      invariant Trying(Observed(obs.events, models, maxAttempts), position, a)
      invariant Observed(obs.events, models, maxAttempts).exact == Observed(old(obs.events), models, maxAttempts).exact
      invariant AllTold(up, obs.events, models, maxAttempts) == AllTold(up, old(obs.events), models, maxAttempts)
      invariant a > 0 ==> up(position, a).outcome == RetrySameModel && lastErr == up(position, a).err
    {
      if a > 0 {
        // The deadline guard, a wall-clock estimate, may abandon the model here.
        var guardFires: bool := *;
        if hasNext && guardFires {
          SpentAfterRetry(a, lastErr, maxAttempts);
          return ModelEnd(zero, TryNextModel, Starved(a, lastErr));
        }
        // The backoff: a dead context is noticed unless the timer happens to win.
        ctx.Poll();
        var doneFirst: bool := *;
        if ctx.dead && doneFirst {
          return ModelEnd(zero, TryNextModel, CtxErr);
        }
      }
      var result := up(position, a + 1);
      ctx.Poll();
      AttemptStep(up, obs.events, position, a, models, maxAttempts);
      obs.Observe(AttemptEvent(position, a + 1, result.outcome));
      a := a + 1;
      match result.outcome {
        case Success =>
          return ModelEnd(result.val, if result.err != Nil then Terminal else Success, result.err);
        case Terminal =>
          return ModelEnd(result.val, Terminal, result.err);
        case TryNextModel =>
          SpentAfterDenial(a, result.err, maxAttempts);
          return ModelEnd(zero, TryNextModel, Denied(a, result.err));
        case RetrySameModel =>
          lastErr := result.err;
      }
    }
    SpentAfterRetry(a, lastErr, maxAttempts);
    return ModelEnd(zero, TryNextModel, Exhausted(maxAttempts, lastErr));
  }

  /** How a run leaves the event stream: well-formed, one result that tells success, value
      and error of the last attempt if that ended the run; and otherwise, in a context that
      is still live, every model was tried and the last one used up. */
  ghost predicate RunDone<T(!new)>(up: Upstream<T>, zero: T, events: seq<Event>, models: nat, maxAttempts: nat, dead: bool, val: T, err: Err) {
    var m := Observed(events, models, maxAttempts);
    && m.good && m.reported
    && (m.exact <==> AllTold(up, events, models, maxAttempts))
    && events != [] && events[|events| - 1] == ResultEvent(m.switches, Succeeded(up, m))
    && (if m.ended then EndedWith(up, m, val, err)
        else val == zero && err != Nil && (dead || models == 0 || (m.position == models - 1 && UsedUp(m, maxAttempts))))
  }

  lemma {:induction false} NothingYet<T>(up: Upstream<T>, models: nat, maxAttempts: nat)
    ensures Truthful(up, []) && Trying(Observed([], models, maxAttempts), 0, 0)
    ensures Observed([], models, maxAttempts).exact && AllTold(up, [], models, maxAttempts)
  {
  }

  lemma {:induction false} ResultStep<T>(up: Upstream<T>, events: seq<Event>, position: nat, ok: bool, models: nat, maxAttempts: nat)
    requires Truthful(up, events)
    requires Left(Observed(events, models, maxAttempts), position, ok) || (!ok && Left(Observed(events, models, maxAttempts), position, true))
    ensures Truthful(up, events + [ResultEvent(position, ok)])
    ensures Observed(events + [ResultEvent(position, ok)], models, maxAttempts) == Observed(events, models, maxAttempts).(reported := true)
    ensures var after := events + [ResultEvent(position, ok)]; after != [] && after[|after| - 1] == ResultEvent(position, ok)
    ensures AllTold(up, events + [ResultEvent(position, ok)], models, maxAttempts) == AllTold(up, events, models, maxAttempts)
  {
    AllToldAppend(up, events, ResultEvent(position, ok), models, maxAttempts);
    ObservedAppend(events, ResultEvent(position, ok), models, maxAttempts);
  }

  lemma {:induction false} SwitchStep<T>(up: Upstream<T>, events: seq<Event>, position: nat, reason: Reason, attempts: nat, models: nat, maxAttempts: nat)
    requires Truthful(up, events) && position + 1 < models
    requires Left(Observed(events, models, maxAttempts), position, false)
    ensures Truthful(up, events + [SwitchEvent(position, reason, attempts)])
    ensures var m, m' := Observed(events, models, maxAttempts), Observed(events + [SwitchEvent(position, reason, attempts)], models, maxAttempts);
      Trying(m', position + 1, 0) && m'.exact == (m.exact && attempts == m.attempts)
    ensures AllTold(up, events + [SwitchEvent(position, reason, attempts)], models, maxAttempts)
       <==> AllTold(up, events, models, maxAttempts) && Told(up, Observed(events, models, maxAttempts), maxAttempts)
  {
    AllToldAppend(up, events, SwitchEvent(position, reason, attempts), models, maxAttempts);
    ObservedAppend(events, SwitchEvent(position, reason, attempts), models, maxAttempts);
  }

  /** Before model i is tried. */
  ghost predicate AtModel<T(!new)>(up: Upstream<T>, m: Monitor, i: nat, models: nat, maxAttempts: nat, dead: bool, lastErr: Err) {
    && (i > 0 ==> lastErr != Nil)
    && (i > 0 && i == models && !dead ==> UsedUp(m, maxAttempts))
    && (if i == 0 then Trying(m, 0, 0) else Left(m, i - 1, false))
    && (i > 0 && !dead ==> (AttemptsSpent(lastErr, maxAttempts) == m.attempts <==> Told(up, m, maxAttempts)))
  }

  /** The whole fallback run over `models` models. */
  method Run<T(!new)>(ctx: Context, up: Upstream<T>, zero: T, models: nat, configuredAttempts: int, obs: Observer)
    returns (val: T, err: Err)
    requires obs.events == []
    modifies ctx, obs
    ensures Truthful(up, obs.events)
    ensures RunDone(up, zero, obs.events, models, AtLeastOne(configuredAttempts), ctx.dead, val, err)
  {
    hide Observed, Step, Truthful, AttemptsSpent, ReasonFor, AllTold, Told;
    var maxAttempts := AtLeastOne(configuredAttempts);
    NothingYet(up, models, maxAttempts);
    if models == 0 {
      ResultStep(up, obs.events, 0, false, models, maxAttempts);
      obs.Observe(ResultEvent(0, false));
      return zero, Plain("no models configured");
    }
    var lastErr := Nil;
    var switches := 0;
    var i := 0;
    while i < models
      invariant 0 <= i <= models && switches == (if i == 0 then 0 else i - 1)
      invariant Truthful(up, obs.events)
      invariant Observed(obs.events, models, maxAttempts).exact <==> AllTold(up, obs.events, models, maxAttempts)
      invariant AtModel(up, Observed(obs.events, models, maxAttempts), i, models, maxAttempts, ctx.dead, lastErr)
    {
      ctx.Poll();
      if ctx.dead {
        ResultStep(up, obs.events, switches, false, models, maxAttempts);
        obs.Observe(ResultEvent(switches, false));
        return zero, CtxErr;
      }
      if i > 0 {
        switches := switches + 1;
        var spent := AttemptsSpent(lastErr, maxAttempts);
        SwitchStep(up, obs.events, i - 1, ReasonFor(lastErr), spent, models, maxAttempts);
        obs.Observe(SwitchEvent(i - 1, ReasonFor(lastErr), spent));
      }
      var end := RunModel(ctx, up, zero, i, models, maxAttempts, i < models - 1, obs);
      if end.outcome == Success || end.outcome == Terminal {
        ResultStep(up, obs.events, switches, end.outcome == Success, models, maxAttempts);
        obs.Observe(ResultEvent(switches, end.outcome == Success));
        return end.val, end.err;
      }
      lastErr := end.err;
      i := i + 1;
    }
    if models > 1 {
      lastErr := AllFailed(models, lastErr);
    }
    ResultStep(up, obs.events, switches, false, models, maxAttempts);
    obs.Observe(ResultEvent(switches, false));
    return zero, lastErr;
  }

  // ----- What the monitor guarantees about a whole trace -----

  function SwitchCount(events: seq<Event>): nat {
    if events == [] then 0 else SwitchCount(events[..|events| - 1]) + if Switches(events[|events| - 1]) then 1 else 0
  }

  /** Attempts since the last switch. */
  function RecentAttempts(events: seq<Event>): nat {
    if events == [] || Switches(events[|events| - 1]) then 0
    else RecentAttempts(events[..|events| - 1]) + if Attempts(events[|events| - 1]) then 1 else 0
  }

  lemma {:induction false} GoodPrefix(events: seq<Event>, n: nat, models: nat, maxAttempts: nat)
    requires n <= |events| && Observed(events, models, maxAttempts).good
    ensures Observed(events[..n], models, maxAttempts).good
    ensures Observed(events, models, maxAttempts).exact ==> Observed(events[..n], models, maxAttempts).exact
    decreases |events|
  {
    if n == |events| {
      assert events[..n] == events;
    } else {
      var front := events[..|events| - 1];
      GoodPrefix(front, n, models, maxAttempts);
      assert front[..n] == events[..n];
    }
  }

  lemma {:induction false} MonitorCounts(events: seq<Event>, models: nat, maxAttempts: nat)
    requires Observed(events, models, maxAttempts).good
    ensures var m := Observed(events, models, maxAttempts);
      m.switches == SwitchCount(events) && m.attempts == RecentAttempts(events)
  {
    if events != [] {
      GoodPrefix(events, |events| - 1, models, maxAttempts);
      MonitorCounts(events[..|events| - 1], models, maxAttempts);
    }
  }

  /** After the result nothing is reported. */
  lemma {:induction false} ReportedIsLast(events: seq<Event>, n: nat, models: nat, maxAttempts: nat)
    requires n < |events| && Observed(events, models, maxAttempts).good
    ensures !Observed(events[..n], models, maxAttempts).reported
  {
    GoodPrefix(events, n + 1, models, maxAttempts);
    assert events[..n + 1][..n] == events[..n];
  }

  lemma {:induction false} ResultReports(events: seq<Event>, n: nat, models: nat, maxAttempts: nat)
    requires n < |events| && events[n].ResultEvent?
    ensures Observed(events[..n + 1], models, maxAttempts).reported
  {
    assert events[..n + 1][..n] == events[..n];
  }

  /** Every run reports exactly one result, last, with its exact number of switches; an
      attempt that succeeded or ended the run is the last attempt; attempts on a model
      are numbered from 1 within the budget. */
  lemma {:induction false} TraceMeaning(events: seq<Event>, models: nat, maxAttempts: nat, n: nat)
    requires Observed(events, models, maxAttempts).good && Observed(events, models, maxAttempts).reported
    requires n < |events|
    ensures events[n].ResultEvent? <==> n == |events| - 1
    ensures events[n].ResultEvent? ==> events[n].switches == SwitchCount(events)
    ensures Attempts(events[n]) ==> events[n].position < models && 1 <= events[n].attempt == RecentAttempts(events[..n]) + 1 <= maxAttempts
                                    && events[n].position == SwitchCount(events[..n])
    ensures Attempts(events[n]) && (events[n].outcome == Success || events[n].outcome == Terminal) ==> n == |events| - 2
    ensures Switches(events[n]) && Observed(events, models, maxAttempts).exact ==> events[n].attempts == RecentAttempts(events[..n])
  {
    GoodPrefix(events, n + 1, models, maxAttempts);
    GoodPrefix(events, n, models, maxAttempts);
    MonitorCounts(events[..n], models, maxAttempts);
    assert events[..n + 1][..n] == events[..n];
    PositionIsSwitches(events[..n], models, maxAttempts);
    LastIsResult(events, models, maxAttempts);
    if events[n].ResultEvent? && n < |events| - 1 {
      ResultReports(events, n, models, maxAttempts);
      ReportedIsLast(events, n + 1, models, maxAttempts);
    }
    if n == |events| - 1 {
      assert events[..n + 1] == events;
    }
    if Attempts(events[n]) && (events[n].outcome == Success || events[n].outcome == Terminal) && n + 1 < |events| - 1 {
      GoodPrefix(events, n + 2, models, maxAttempts);
      assert events[..n + 2][..n + 1] == events[..n + 1];
      ResultReports(events, n + 1, models, maxAttempts);
      ReportedIsLast(events, n + 2, models, maxAttempts);
    }
  }

  lemma {:induction false} LastIsResult(events: seq<Event>, models: nat, maxAttempts: nat)
    requires Observed(events, models, maxAttempts).good && Observed(events, models, maxAttempts).reported
    ensures events != [] && events[|events| - 1].ResultEvent?
  {
  }

  lemma {:induction false} PositionIsSwitches(events: seq<Event>, models: nat, maxAttempts: nat)
    ensures Observed(events, models, maxAttempts).position == SwitchCount(events)
  {
    if events != [] {
      PositionIsSwitches(events[..|events| - 1], models, maxAttempts);
    }
  }

  // ----- When the report is wrong -----

  lemma {:induction false} AttemptsWithin(events: seq<Event>, models: nat, maxAttempts: nat)
    requires Observed(events, models, maxAttempts).good
    ensures Observed(events, models, maxAttempts).attempts <= maxAttempts
  {
    if events != [] {
      GoodPrefix(events, |events| - 1, models, maxAttempts);
      AttemptsWithin(events[..|events| - 1], models, maxAttempts);
    }
  }

  lemma {:induction false} TruthfulPrefix<T>(up: Upstream<T>, events: seq<Event>, n: nat)
    requires Truthful(up, events) && n <= |events|
    ensures Truthful(up, events[..n])
  {
    forall i | 0 <= i < n && Attempts(events[..n][i]) ensures events[..n][i].outcome == up(events[..n][i].position, events[..n][i].attempt).outcome {
      assert events[..n][i] == events[i];
    }
  }

  /** The attempt that ended a run was a success or terminal. */
  lemma {:induction false} EndingOutcome<T>(up: Upstream<T>, events: seq<Event>, models: nat, maxAttempts: nat)
    requires Truthful(up, events) && Observed(events, models, maxAttempts).good && Observed(events, models, maxAttempts).ended
    ensures var m := Observed(events, models, maxAttempts); up(m.position, m.attempts).outcome in {Success, Terminal}
  {
    if events != [] {
      var front := events[..|events| - 1];
      GoodPrefix(events, |events| - 1, models, maxAttempts);
      TruthfulPrefix(up, events, |events| - 1);
      if !Attempts(events[|events| - 1]) {
        EndingOutcome(up, front, models, maxAttempts);
      }
    }
  }

  lemma {:induction false} SwitchStands(events: seq<Event>) returns (k: nat)
    requires SwitchCount(events) > 0
    ensures k < |events| && Switches(events[k])
  {
    k := |events| - 1;
    if !Switches(events[k]) {
      k := SwitchStands(events[..k]);
    }
  }

  /** An attempt error that carries the marker of a nested run which made seven attempts. */
  const NESTED := AllFailed(2, Starved(7, Nil))

  /** Every run of an upstream that fails with a nested run's error misreports as soon as it
      may switch: with two models and a live context, some switch tells seven attempts where
      fewer were made. */
  lemma {:induction false} NestedRunMisreports<T(!new)>(up: Upstream<T>, zero: T, events: seq<Event>, models: nat, maxAttempts: nat, dead: bool, val: T, err: Err)
    requires RunDone(up, zero, events, models, maxAttempts, dead, val, err) && Truthful(up, events)
    requires forall p, n :: up(p, n) == AttemptResult(zero, TryNextModel, NESTED)
    requires models >= 2 && maxAttempts < 7 && !dead
    ensures !Observed(events, models, maxAttempts).exact
  {
    var m := Observed(events, models, maxAttempts);
    if m.ended {
      EndingOutcome(up, events, models, maxAttempts);
    }
    PositionIsSwitches(events, models, maxAttempts);
    var k := SwitchStands(events);
    GoodPrefix(events, k, models, maxAttempts);
    AttemptsWithin(events[..k], models, maxAttempts);
    var before := Observed(events[..k], models, maxAttempts);
    assert AsStarved(NESTED) == Some(7);
    assert !TellsTruth(TryNextModel, NESTED, before.attempts, maxAttempts);
    assert !Told(up, before, maxAttempts);
  }
}
