/** The pre-freeze coverage gate (agent/coverage_gate.go): one decision per planner step,
    a bounded number of blocked rounds, and enough steps left after each of them. */
module CoverageGate {
  import opened GoText

  const COVERAGE_REPAIR_RESERVED_STEPS := 4

  datatype Reason = Disabled | CoverageSatisfied | NoCoverageProgress | Blocked | RoundBudgetExhausted | StepBudgetReserved

  /** What the gate remembers of a run. */
  datatype GateState = GateState(signature: string, rounds: nat, decisionStep: int, block: bool, reason: Reason, satisfied: bool)

  datatype Decision = Decision(block: bool, rounds: nat, reason: Reason)

  /** A fresh decision for a signature not seen in the previous decision. */
  function Decide(prevRounds: nat, signature: string, step: int, maxSteps: int, maxRounds: int): GateState {
    if prevRounds >= maxRounds then GateState(signature, prevRounds, step, false, RoundBudgetExhausted, false)
    else if maxSteps - step < COVERAGE_REPAIR_RESERVED_STEPS + 2 * (maxRounds - prevRounds)
    then GateState(signature, prevRounds, step, false, StepBudgetReserved, false)
    else GateState(signature, prevRounds + 1, step, true, Blocked, false)
  }

  /** admitCoverageBlock on the remembered state of one run. */
  function Admit(st: Option<GateState>, signature: string, step: int, maxSteps: int, maxRounds: int): (Option<GateState>, Decision) {
    if maxRounds <= 0 then (st, Decision(false, 0, Disabled))
    else if st.Some? && st.value.satisfied then (st, Decision(false, st.value.rounds, CoverageSatisfied))
    else if st.Some? && st.value.decisionStep == step then (st, Decision(st.value.block, st.value.rounds, st.value.reason))
    else if st.Some? && st.value.signature == signature then
      var s := st.value.(decisionStep := step, block := false, reason := NoCoverageProgress);
      (Some(s), Decision(false, s.rounds, NoCoverageProgress))
    else
      var s := Decide(if st.Some? then st.value.rounds else 0, signature, step, maxSteps, maxRounds);
      (Some(s), Decision(s.block, s.rounds, s.reason))
  }

  class CoverageGateRuns {
    var runs: map<string, GateState>

    constructor ()
      ensures runs == map[]
    {
      runs := map[];
    }

    function Of(runId: string): Option<GateState>
      reads this
    {
      if runId in runs then Some(runs[runId]) else None
    }

    method AdmitCoverageBlock(runId: string, signature: string, step: int, maxSteps: int, maxRounds: int) returns (d: Decision)
      modifies this
      ensures runId == "" ==> d == Decision(false, 0, Disabled) && runs == old(runs)
      ensures runId != "" ==> (Of(runId), d) == Admit(old(Of(runId)), signature, step, maxSteps, maxRounds)
      ensures runs - {runId} == old(runs) - {runId}
    {
      if runId == "" || maxRounds <= 0 {
        return Decision(false, 0, Disabled);
      }
      var prevRounds := 0;
      if runId in runs {
        var st := runs[runId];
        if st.satisfied {
          return Decision(false, st.rounds, CoverageSatisfied);
        }
        if st.decisionStep == step {
          return Decision(st.block, st.rounds, st.reason);
        }
        prevRounds := st.rounds;
        if st.signature == signature {
          runs := runs[runId := st.(decisionStep := step, block := false, reason := NoCoverageProgress)];
          return Decision(false, st.rounds, NoCoverageProgress);
        }
      }
      var reason, block := Blocked, true;
      if prevRounds >= maxRounds {
        block, reason := false, RoundBudgetExhausted;
      } else if maxSteps - step < COVERAGE_REPAIR_RESERVED_STEPS + 2 * (maxRounds - prevRounds) {
        block, reason := false, StepBudgetReserved;
      }
      if block {
        prevRounds := prevRounds + 1;
      }
      runs := runs[runId := GateState(signature, prevRounds, step, block, reason, false)];
      return Decision(block, prevRounds, reason);
    }

    method MarkCoverageGateSatisfied(runId: string)
      modifies this
      ensures runs == old(runs)[runId := Satisfy(old(Of(runId)))]
    {
      var st := if runId in runs then runs[runId] else GateState("", 0, 0, false, CoverageSatisfied, false);
      runs := runs[runId := st.(satisfied := true, block := false, reason := CoverageSatisfied)];
    }
  }

  function Satisfy(st: Option<GateState>): GateState {
    var s := if st.Some? then st.value else GateState("", 0, 0, false, CoverageSatisfied, false);
    s.(satisfied := true, block := false, reason := CoverageSatisfied)
  }

  // ----- Whole runs -----

  /** What happens to one run's gate, in order: a gate question or a satisfaction. */
  datatype Ask = Ask(signature: string, step: int) | Satisfied

  function After(asks: seq<Ask>, maxSteps: int, maxRounds: int): Option<GateState> {
    if asks == [] then None
    else
      var st := After(asks[..|asks| - 1], maxSteps, maxRounds);
      match asks[|asks| - 1]
      case Satisfied => Some(Satisfy(st))
      case Ask(signature, step) => Admit(st, signature, step, maxSteps, maxRounds).0
  }

  /** The answer to the question asked after `asks`. */
  function Answer(asks: seq<Ask>, a: Ask, maxSteps: int, maxRounds: int): Decision
    requires a.Ask?
  {
    Admit(After(asks, maxSteps, maxRounds), a.signature, a.step, maxSteps, maxRounds).1
  }

  /** The planner steps in which some call was blocked. */
  function BlockedSteps(asks: seq<Ask>, maxSteps: int, maxRounds: int): set<int> {
    if asks == [] then {}
    else
      var front, a := asks[..|asks| - 1], asks[|asks| - 1];
      BlockedSteps(front, maxSteps, maxRounds)
      + if a.Ask? && Answer(front, a, maxSteps, maxRounds).block then {a.step} else {}
  }

  /** The blocked steps are paid for by rounds, and a standing block is among them. */
  ghost predicate PaidFor(st: Option<GateState>, blocked: set<int>, maxRounds: int) {
    match st
    case None => blocked == {}
    case Some(s) =>
      |blocked| <= s.rounds <= (if maxRounds > 0 then maxRounds else 0) && (s.block ==> s.decisionStep in blocked)
  }

  lemma {:induction false} AskPaysForBlock(st: Option<GateState>, blocked: set<int>, signature: string, step: int, maxSteps: int, maxRounds: int)
    requires PaidFor(st, blocked, maxRounds)
    ensures var (st', d) := Admit(st, signature, step, maxSteps, maxRounds);
      PaidFor(st', blocked + if d.block then {step} else {}, maxRounds)
  {
    var (st', d) := Admit(st, signature, step, maxSteps, maxRounds);
    assert blocked + {} == blocked;
    if d.block && step in blocked {
      assert blocked + {step} == blocked;
    }
  }

  lemma {:induction false} BlockedWithinRounds(asks: seq<Ask>, maxSteps: int, maxRounds: int)
    ensures PaidFor(After(asks, maxSteps, maxRounds), BlockedSteps(asks, maxSteps, maxRounds), maxRounds)
  {
    if asks != [] {
      var front, a := asks[..|asks| - 1], asks[|asks| - 1];
      BlockedWithinRounds(front, maxSteps, maxRounds);
      if a.Ask? {
        AskPaysForBlock(After(front, maxSteps, maxRounds), BlockedSteps(front, maxSteps, maxRounds), a.signature, a.step, maxSteps, maxRounds);
      }
    }
  }

  /** The gate blocks at most maxRounds planner steps of a run, whatever is asked. */
  lemma {:induction false} BlockedStepsBounded(asks: seq<Ask>, maxSteps: int, maxRounds: int)
    ensures |BlockedSteps(asks, maxSteps, maxRounds)| <= if maxRounds > 0 then maxRounds else 0
  {
    BlockedWithinRounds(asks, maxSteps, maxRounds);
  }

  /** Questions of one step, with the satisfactions that arrive meanwhile. */
  predicate InStep(asks: seq<Ask>, step: int) {
    forall i :: 0 <= i < |asks| ==> asks[i].Ask? ==> asks[i].step == step
  }

  /** What a later call of the step gets: the first call's decision, or, once coverage is
      satisfied, leave to go on. */
  function LaterAnswer(first: Decision, others: seq<Ask>, maxRounds: int): Decision {
    if maxRounds > 0 && Satisfied in others then Decision(false, first.rounds, CoverageSatisfied) else first
  }

  /** The state after the first question of a step and others of the step: it answers every
      further question of the step with that decision. */
  ghost predicate Decided(st: Option<GateState>, first: Decision, others: seq<Ask>, step: int, maxRounds: int) {
    if maxRounds <= 0 then first == Decision(false, 0, Disabled)
    else
      && st.Some? && st.value.rounds == first.rounds
      && (if Satisfied in others || first.reason == CoverageSatisfied then st.value.satisfied && (first.reason == CoverageSatisfied ==> !first.block)
          else !st.value.satisfied && st.value.decisionStep == step && st.value.block == first.block && st.value.reason == first.reason)
  }

  lemma {:induction false} StepDecided(before: seq<Ask>, first: Ask, others: seq<Ask>, maxSteps: int, maxRounds: int)
    requires first.Ask? && InStep(others, first.step)
    ensures Decided(After(before + [first] + others, maxSteps, maxRounds), Answer(before, first, maxSteps, maxRounds), others, first.step, maxRounds)
  {
    assert (before + [first])[..|before|] == before;
    if others == [] {
      assert before + [first] + others == before + [first];
      FirstDecided(After(before, maxSteps, maxRounds), first, maxSteps, maxRounds, before);
    } else {
      var front, last := others[..|others| - 1], others[|others| - 1];
      StepDecided(before, first, front, maxSteps, maxRounds);
      assert (before + [first] + others)[..|before| + |others|] == before + [first] + front;
      assert others == front + [last];
    }
  }

  /** The reason of satisfied coverage is given only when it is satisfied. */
  lemma {:induction false} FirstDecided(st: Option<GateState>, first: Ask, maxSteps: int, maxRounds: int, before: seq<Ask>)
    requires first.Ask? && st == After(before, maxSteps, maxRounds)
    ensures var (st', d) := Admit(st, first.signature, first.step, maxSteps, maxRounds);
      Decided(st', d, [], first.step, maxRounds)
  {
    SatisfiedReason(before, maxSteps, maxRounds);
  }

  lemma {:induction false} SatisfiedReason(asks: seq<Ask>, maxSteps: int, maxRounds: int)
    ensures var st := After(asks, maxSteps, maxRounds);
      st.Some? ==> (st.value.reason == CoverageSatisfied <==> st.value.satisfied) && (st.value.satisfied ==> !st.value.block)
  {
    if asks != [] {
      SatisfiedReason(asks[..|asks| - 1], maxSteps, maxRounds);
    }
  }

  /** Every call of one step gets the decision of the first, whatever the signatures and
      however the calls interleave, until coverage is satisfied: then every later call is
      let through. */
  lemma {:induction false} OneDecisionPerStep(before: seq<Ask>, first: Ask, others: seq<Ask>, last: Ask, maxSteps: int, maxRounds: int)
    requires first.Ask? && last.Ask? && last.step == first.step && InStep(others, first.step)
    ensures Answer(before + [first] + others, last, maxSteps, maxRounds) == LaterAnswer(Answer(before, first, maxSteps, maxRounds), others, maxRounds)
  {
    StepDecided(before, first, others, maxSteps, maxRounds);
  }

  /** A block always leaves the reserved steps: two for each round still possible (this
      one included) and four to finish; and coverage that is satisfied never blocks. */
  lemma {:induction false} BlockLeavesBudget(asks: seq<Ask>, a: Ask, maxSteps: int, maxRounds: int)
    requires a.Ask? && Answer(asks, a, maxSteps, maxRounds).block
    ensures var st := After(asks, maxSteps, maxRounds);
      && (st.Some? ==> !st.value.satisfied)
      && (a.step !in BlockedSteps(asks, maxSteps, maxRounds) ==>
            maxSteps - a.step >= COVERAGE_REPAIR_RESERVED_STEPS + 2 * (maxRounds - (Answer(asks, a, maxSteps, maxRounds).rounds - 1)))
  {
    BlockedWithinRounds(asks, maxSteps, maxRounds);
  }
}
