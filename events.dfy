/**
 * The event triggers and their evaluator. A trigger fires when every one of its
 * threshold conditions has held for its required number of consecutive daily
 * evaluations and the day's random draw falls below its probability; a one-time
 * trigger retires once it has fired.
 *
 * The mutable part of each trigger (whether it fired, and each condition's
 * counter of consecutive days met) is kept apart from the static catalogue as a
 * sequence of `TriggerState`s aligned with the triggers; the engine holds it as a
 * field. The draw of `Math.random()` for trigger `i` is `draws[i]`, looked at only
 * when the trigger is ready.
 */
module Events {
  import opened Types
  import opened Variables
  import opened Sequences

  /** Tolerance of `=` and `!=`. */
  const Epsilon: real := 0.1

  function Abs(x: real): real
  {
    if x < 0.0 then -x else x
  }

  /** What one condition's operator says about a value and its threshold. */
  predicate Holds(op: Operator, value: real, threshold: real)
  {
    match op
    case Gt => value > threshold
    case Lt => value < threshold
    case Eq => Abs(value - threshold) < Epsilon
    case Ge => value >= threshold
    case Le => value <= threshold
    case Ne => Abs(value - threshold) >= Epsilon
  }

  /** The operator that holds exactly where `op` does not. */
  function Negation(op: Operator): Operator
  {
    match op
    case Gt => Le
    case Le => Gt
    case Lt => Ge
    case Ge => Lt
    case Eq => Ne
    case Ne => Eq
  }

  /** `=`/`!=`, `>`/`<=` and `<`/`>=` are exact complements; `=` is symmetric. */
  lemma OperatorComplements(op: Operator, value: real, threshold: real)
    ensures Holds(Negation(op), value, threshold) <==> !Holds(op, value, threshold)
    ensures Negation(Negation(op)) == op
    ensures Holds(Eq, value, threshold) <==> Holds(Eq, threshold, value)
  {
  }

  // ---------------------------------------------------------------------------
  // One evaluation

  datatype ConditionOutcome = ConditionOutcome(satisfied: bool, durationMet: nat)

  /** One condition on one day. A missing variable blocks without touching the
      counter; a false comparison resets it; a true one counts the day, and the
      condition is satisfied once the count reaches a non-zero duration (at once
      when the duration is absent). */
  function StepCondition(c: Condition, durationMet: nat, variables: map<string, Variable>): (r: ConditionOutcome)
    ensures c.variableId !in variables ==> !r.satisfied && r.durationMet == durationMet
    ensures c.variableId in variables && !Holds(c.op, variables[c.variableId].value, c.threshold) ==>
      !r.satisfied && r.durationMet == 0
    ensures c.variableId in variables && Holds(c.op, variables[c.variableId].value, c.threshold) ==>
      r.durationMet == durationMet + 1 && (r.satisfied <==> c.duration == 0 || r.durationMet >= c.duration)
  {
    if c.variableId !in variables then ConditionOutcome(false, durationMet)
    else if !Holds(c.op, variables[c.variableId].value, c.threshold) then ConditionOutcome(false, 0)
    else
      var met := durationMet + 1;
      ConditionOutcome(!(c.duration != 0 && met < c.duration), met)
  }

  datatype ConditionsOutcome = ConditionsOutcome(allMet: bool, durationMet: seq<nat>)

  /** All conditions of a trigger, left to right. */
  function StepConditions(conditions: seq<Condition>, durationMet: seq<nat>,
                          variables: map<string, Variable>): (r: ConditionsOutcome)
    requires |conditions| == |durationMet|
    ensures |r.durationMet| == |conditions|
    ensures forall i :: 0 <= i < |conditions| ==>
      r.durationMet[i] == StepCondition(conditions[i], durationMet[i], variables).durationMet
    ensures r.allMet <==> forall i :: 0 <= i < |conditions| ==>
      StepCondition(conditions[i], durationMet[i], variables).satisfied
  {
    if conditions == [] then ConditionsOutcome(true, [])
    else
      var n := |conditions| - 1;
      var init := StepConditions(conditions[..n], durationMet[..n], variables);
      var last := StepCondition(conditions[n], durationMet[n], variables);
      ConditionsOutcome(init.allMet && last.satisfied, init.durationMet + [last.durationMet])
  }

  datatype TriggerOutcome = TriggerOutcome(fired: bool, state: TriggerState)

  /** The state holds one counter per condition of its trigger. */
  predicate Matches(t: Trigger, s: TriggerState)
  {
    |s.durationMet| == |t.conditions|
  }

  /** One trigger on one day: a retired one-time trigger is skipped; otherwise every
      condition is stepped, and the trigger fires when all are satisfied and the
      draw is below its probability. */
  function StepTrigger(t: Trigger, s: TriggerState, variables: map<string, Variable>, draw: real): (r: TriggerOutcome)
    requires Matches(t, s)
    ensures Matches(t, r.state)
    ensures s.triggered && t.oneTime ==> !r.fired && r.state == s
    ensures !(s.triggered && t.oneTime) ==>
      r.state.durationMet == StepConditions(t.conditions, s.durationMet, variables).durationMet &&
      (r.fired <==> StepConditions(t.conditions, s.durationMet, variables).allMet && draw < t.probability) &&
      r.state.triggered == (s.triggered || r.fired)
  {
    if s.triggered && t.oneTime then TriggerOutcome(false, s)
    else
      var conditions := StepConditions(t.conditions, s.durationMet, variables);
      var fired := conditions.allMet && draw < t.probability;
      TriggerOutcome(fired, TriggerState(s.triggered || fired, conditions.durationMet))
  }

  predicate Aligned(triggers: seq<Trigger>, states: seq<TriggerState>)
  {
    |triggers| == |states| && forall i :: 0 <= i < |triggers| ==> Matches(triggers[i], states[i])
  }

  /** Every index lies in 0..n-1. */
  predicate InRange(xs: seq<int>, n: int)
  {
    forall k :: 0 <= k < |xs| ==> 0 <= xs[k] < n
  }

  lemma InRangeAppend(xs: seq<int>, n: int)
    requires InRange(xs, n) && 0 <= n
    ensures InRange(xs + [n], n + 1)
  {
  }

  predicate StrictlyIncreasing(xs: seq<int>)
  {
    forall k, l :: 0 <= k < l < |xs| ==> xs[k] < xs[l]
  }

  /** The indices of the triggers that fired, in catalogue order, and every
      trigger's new state. */
  datatype Evaluation = Evaluation(fired: seq<int>, states: seq<TriggerState>)

  /** The first n triggers evaluated, each stepped on its own state and draw. */
  function EvaluateUpTo(triggers: seq<Trigger>, states: seq<TriggerState>, variables: map<string, Variable>,
                        draws: seq<real>, n: int): (r: Evaluation)
    requires Aligned(triggers, states) && |draws| == |triggers| && 0 <= n <= |triggers|
    ensures |r.states| == n
  {
    if n == 0 then Evaluation([], [])
    else
      var init := EvaluateUpTo(triggers, states, variables, draws, n - 1);
      var last := StepTrigger(triggers[n - 1], states[n - 1], variables, draws[n - 1]);
      Evaluation(if last.fired then init.fired + [n - 1] else init.fired, init.states + [last.state])
  }

  /** A whole evaluation. */
  function Evaluate(triggers: seq<Trigger>, states: seq<TriggerState>, variables: map<string, Variable>,
                    draws: seq<real>): (r: Evaluation)
    requires Aligned(triggers, states) && |draws| == |triggers|
    ensures |r.states| == |triggers|
  {
    EvaluateUpTo(triggers, states, variables, draws, |triggers|)
  }

  lemma {:induction false} UpToStates(triggers: seq<Trigger>, states: seq<TriggerState>,
                                      variables: map<string, Variable>, draws: seq<real>, n: int, i: int)
    requires Aligned(triggers, states) && |draws| == |triggers| && 0 <= i < n <= |triggers|
    ensures EvaluateUpTo(triggers, states, variables, draws, n).states[i] ==
      StepTrigger(triggers[i], states[i], variables, draws[i]).state
  {
    if i < n - 1 {
      UpToStates(triggers, states, variables, draws, n - 1, i);
    }
  }

  lemma {:induction false} UpToOrdered(triggers: seq<Trigger>, states: seq<TriggerState>,
                                       variables: map<string, Variable>, draws: seq<real>, n: int)
    requires Aligned(triggers, states) && |draws| == |triggers| && 0 <= n <= |triggers|
    ensures var fired := EvaluateUpTo(triggers, states, variables, draws, n).fired;
      InRange(fired, n) && StrictlyIncreasing(fired)
  {
    if n > 0 {
      UpToOrdered(triggers, states, variables, draws, n - 1);
    }
  }

  lemma {:induction false} UpToFired(triggers: seq<Trigger>, states: seq<TriggerState>,
                                     variables: map<string, Variable>, draws: seq<real>, n: int, i: int)
    requires Aligned(triggers, states) && |draws| == |triggers| && 0 <= i < n <= |triggers|
    ensures i in EvaluateUpTo(triggers, states, variables, draws, n).fired <==>
      StepTrigger(triggers[i], states[i], variables, draws[i]).fired
  {
    UpToOrdered(triggers, states, variables, draws, n - 1);
    if i < n - 1 {
      UpToFired(triggers, states, variables, draws, n - 1, i);
    }
  }

  /** Each trigger's new state is the state its own step gives. */
  lemma EvaluateStates(triggers: seq<Trigger>, states: seq<TriggerState>,
                       variables: map<string, Variable>, draws: seq<real>, i: int)
    requires Aligned(triggers, states) && |draws| == |triggers| && 0 <= i < |triggers|
    ensures Evaluate(triggers, states, variables, draws).states[i] ==
      StepTrigger(triggers[i], states[i], variables, draws[i]).state
  {
    UpToStates(triggers, states, variables, draws, |triggers|, i);
  }

  /** The new states still hold one counter per condition. */
  lemma EvaluateAligned(triggers: seq<Trigger>, states: seq<TriggerState>,
                        variables: map<string, Variable>, draws: seq<real>)
    requires Aligned(triggers, states) && |draws| == |triggers|
    ensures Aligned(triggers, Evaluate(triggers, states, variables, draws).states)
  {
    forall i | 0 <= i < |triggers|
      ensures Matches(triggers[i], Evaluate(triggers, states, variables, draws).states[i])
    {
      EvaluateStates(triggers, states, variables, draws, i);
    }
  }

  /** The fired indices lie in range and increase strictly. */
  lemma EvaluateOrdered(triggers: seq<Trigger>, states: seq<TriggerState>,
                        variables: map<string, Variable>, draws: seq<real>)
    requires Aligned(triggers, states) && |draws| == |triggers|
    ensures var fired := Evaluate(triggers, states, variables, draws).fired;
      InRange(fired, |triggers|) && StrictlyIncreasing(fired)
  {
    UpToOrdered(triggers, states, variables, draws, |triggers|);
  }

  /** The fired indices are exactly the triggers whose own step fired. */
  lemma EvaluateFired(triggers: seq<Trigger>, states: seq<TriggerState>,
                      variables: map<string, Variable>, draws: seq<real>, i: int)
    requires Aligned(triggers, states) && |draws| == |triggers| && 0 <= i < |triggers|
    ensures i in Evaluate(triggers, states, variables, draws).fired <==>
      StepTrigger(triggers[i], states[i], variables, draws[i]).fired
  {
    UpToFired(triggers, states, variables, draws, |triggers|, i);
  }

  /** The triggers at the given indices. */
  function Select(triggers: seq<Trigger>, indices: seq<int>): (r: seq<Trigger>)
    requires InRange(indices, |triggers|)
    ensures |r| == |indices| && forall k :: 0 <= k < |indices| ==> r[k] == triggers[indices[k]]
  {
    if indices == [] then [] else Select(triggers, indices[..|indices| - 1]) + [triggers[indices[|indices| - 1]]]
  }

  /** Stepping one condition more extends the outcome of the ones before. */
  lemma StepConditionsPrefix(conditions: seq<Condition>, durationMet: seq<nat>,
                             variables: map<string, Variable>, j: int)
    requires |conditions| == |durationMet| && 0 <= j < |conditions|
    ensures var init := StepConditions(conditions[..j], durationMet[..j], variables);
      var last := StepCondition(conditions[j], durationMet[j], variables);
      StepConditions(conditions[..j + 1], durationMet[..j + 1], variables) ==
      ConditionsOutcome(init.allMet && last.satisfied, init.durationMet + [last.durationMet])
  {
    assert conditions[..j + 1][..j] == conditions[..j];
    assert durationMet[..j + 1][..j] == durationMet[..j];
  }

  /** One condition of the inner loop: compare, then count or reset its days. */
  method CheckCondition(condition: Condition, durationMet: nat, variables: map<string, Variable>)
    returns (satisfied: bool, counter: nat)
    ensures ConditionOutcome(satisfied, counter) == StepCondition(condition, durationMet, variables)
  {
    counter := durationMet;
    satisfied := true;
    if condition.variableId !in variables {
      satisfied := false;
    } else {
      var value := variables[condition.variableId].value;
      var conditionMet := false;
      match condition.op {
        case Gt => conditionMet := value > condition.threshold;
        case Lt => conditionMet := value < condition.threshold;
        case Eq => conditionMet := Abs(value - condition.threshold) < Epsilon;
        case Ge => conditionMet := value >= condition.threshold;
        case Le => conditionMet := value <= condition.threshold;
        case Ne => conditionMet := Abs(value - condition.threshold) >= Epsilon;
      }
      if !conditionMet {
        satisfied := false;
        counter := 0;
      } else {
        counter := counter + 1;
        if condition.duration != 0 && counter < condition.duration {
          satisfied := false;
        }
      }
    }
  }

  /** The inner loop of `checkEventTriggers`: every condition of one trigger. */
  method CheckConditions(conditions: seq<Condition>, durationMet: seq<nat>, variables: map<string, Variable>)
    returns (allMet: bool, counters: seq<nat>)
    requires |conditions| == |durationMet|
    ensures ConditionsOutcome(allMet, counters) == StepConditions(conditions, durationMet, variables)
  {
    allMet := true;
    counters := [];
    var j := 0;
    while j < |conditions|
      invariant 0 <= j <= |conditions|
      invariant StepConditions(conditions[..j], durationMet[..j], variables) == ConditionsOutcome(allMet, counters)
    {
      StepConditionsPrefix(conditions, durationMet, variables, j);
      var conditionSatisfied, counter := CheckCondition(conditions[j], durationMet[j], variables);
      allMet := allMet && conditionSatisfied;
      counters := counters + [counter];
      j := j + 1;
    }
    assert conditions[..j] == conditions;
    assert durationMet[..j] == durationMet;
  }

  /** Selecting one index more appends its trigger. */
  lemma SelectAppend(triggers: seq<Trigger>, indices: seq<int>, i: int)
    requires InRange(indices, |triggers|)
    requires 0 <= i < |triggers|
    ensures Select(triggers, indices + [i]) == Select(triggers, indices) + [triggers[i]]
  {
    assert (indices + [i])[..|indices|] == indices;
  }

  /** The body of `checkEventTriggers`'s outer loop: one trigger on its state and draw. */
  method CheckTrigger(trigger: Trigger, state: TriggerState, variables: map<string, Variable>, draw: real)
    returns (triggerFired: bool, newState: TriggerState)
    requires Matches(trigger, state)
    ensures TriggerOutcome(triggerFired, newState) == StepTrigger(trigger, state, variables, draw)
  {
    if state.triggered && trigger.oneTime {
      return false, state;
    }
    var allMet, counters := CheckConditions(trigger.conditions, state.durationMet, variables);
    triggerFired := allMet && draw < trigger.probability;
    newState := TriggerState(state.triggered || triggerFired, counters);
  }

  /** `checkEventTriggers`: returns the triggers that fired, in catalogue order, and
      the trigger states after the evaluation. */
  method CheckEventTriggers(triggers: seq<Trigger>, states: seq<TriggerState>,
                            variables: map<string, Variable>, draws: seq<real>)
    returns (fired: seq<Trigger>, newStates: seq<TriggerState>)
    requires Aligned(triggers, states) && |draws| == |triggers|
    ensures newStates == Evaluate(triggers, states, variables, draws).states
    ensures InRange(Evaluate(triggers, states, variables, draws).fired, |triggers|)
    ensures fired == Select(triggers, Evaluate(triggers, states, variables, draws).fired)
  {
    EvaluateOrdered(triggers, states, variables, draws);
    fired := [];
    newStates := [];
    ghost var firedIndices: seq<int> := [];
    var i := 0;
    while i < |triggers|
      invariant 0 <= i <= |triggers|
      invariant EvaluateUpTo(triggers, states, variables, draws, i) == Evaluation(firedIndices, newStates)
      invariant InRange(firedIndices, i) && InRange(firedIndices, |triggers|)
      invariant fired == Select(triggers, firedIndices)
    {
      var triggerFired, newState := CheckTrigger(triggers[i], states[i], variables, draws[i]);
      assert EvaluateUpTo(triggers, states, variables, draws, i + 1) ==
        Evaluation(if triggerFired then firedIndices + [i] else firedIndices, newStates + [newState]);
      if triggerFired {
        SelectAppend(triggers, firedIndices, i);
        InRangeAppend(firedIndices, i);
        fired := fired + [triggers[i]];
        firedIndices := firedIndices + [i];
      }
      newStates := newStates + [newState];
      i := i + 1;
    }
  }

  // ---------------------------------------------------------------------------
  // Properties of the evaluation

  /** A trigger is returned exactly when it is not retired, all its conditions are
      satisfied and the draw is below its probability; firing marks it triggered. */
  lemma FiringRule(triggers: seq<Trigger>, states: seq<TriggerState>, variables: map<string, Variable>,
                   draws: seq<real>, i: int)
    requires Aligned(triggers, states) && |draws| == |triggers| && 0 <= i < |triggers|
    ensures var e := Evaluate(triggers, states, variables, draws);
      (i in e.fired <==>
         !(states[i].triggered && triggers[i].oneTime) &&
         (forall c :: 0 <= c < |triggers[i].conditions| ==>
            StepCondition(triggers[i].conditions[c], states[i].durationMet[c], variables).satisfied) &&
         draws[i] < triggers[i].probability) &&
      (i in e.fired ==> e.states[i].triggered)
  {
    EvaluateStates(triggers, states, variables, draws, i);
    EvaluateFired(triggers, states, variables, draws, i);
  }

  /** A retired one-time trigger is neither returned nor touched. */
  lemma RetiredUntouched(triggers: seq<Trigger>, states: seq<TriggerState>, variables: map<string, Variable>,
                         draws: seq<real>, i: int)
    requires Aligned(triggers, states) && |draws| == |triggers| && 0 <= i < |triggers|
    requires states[i].triggered && triggers[i].oneTime
    ensures i !in Evaluate(triggers, states, variables, draws).fired
    ensures Evaluate(triggers, states, variables, draws).states[i] == states[i]
  {
    EvaluateStates(triggers, states, variables, draws, i);
    EvaluateFired(triggers, states, variables, draws, i);
  }

  /** No short-circuit: every condition of a live trigger has its counter updated,
      whatever the earlier conditions gave. */
  lemma EveryCounterUpdated(t: Trigger, s: TriggerState, variables: map<string, Variable>, draw: real, c: int)
    requires Matches(t, s) && !(s.triggered && t.oneTime) && 0 <= c < |t.conditions|
    ensures StepTrigger(t, s, variables, draw).state.durationMet[c] ==
      StepCondition(t.conditions[c], s.durationMet[c], variables).durationMet
  {
  }

  /** A ready trigger with probability 1 fires on every draw in [0, 1). */
  lemma CertainTriggerFires(t: Trigger, s: TriggerState, variables: map<string, Variable>, draw: real)
    requires Matches(t, s) && !(s.triggered && t.oneTime) && t.probability == 1.0 && 0.0 <= draw < 1.0
    requires StepConditions(t.conditions, s.durationMet, variables).allMet
    ensures StepTrigger(t, s, variables, draw).fired
  {
  }

  /** Stepping a condition again on the same variables keeps a satisfied condition
      satisfied: its counter only grows. */
  lemma SatisfiedStaysSatisfied(c: Condition, durationMet: nat, variables: map<string, Variable>)
    requires StepCondition(c, durationMet, variables).satisfied
    ensures StepCondition(c, StepCondition(c, durationMet, variables).durationMet, variables).satisfied
  {
  }

  lemma {:induction false} AllMetStaysAllMet(conditions: seq<Condition>, durationMet: seq<nat>,
                                             variables: map<string, Variable>)
    requires |conditions| == |durationMet|
    requires StepConditions(conditions, durationMet, variables).allMet
    ensures StepConditions(conditions, StepConditions(conditions, durationMet, variables).durationMet, variables).allMet
  {
    var after := StepConditions(conditions, durationMet, variables).durationMet;
    forall i | 0 <= i < |conditions|
      ensures StepCondition(conditions[i], after[i], variables).satisfied
    {
      SatisfiedStaysSatisfied(conditions[i], durationMet[i], variables);
    }
  }

  /** Firing does not reset the counters: a repeatable trigger that fired is ready
      again at the next evaluation if the variables have not changed. */
  lemma RepeatableReadyAgain(t: Trigger, s: TriggerState, variables: map<string, Variable>, draw: real)
    requires Matches(t, s) && !t.oneTime
    requires StepTrigger(t, s, variables, draw).fired
    ensures var s' := StepTrigger(t, s, variables, draw).state;
      StepConditions(t.conditions, s'.durationMet, variables).allMet
  {
    AllMetStaysAllMet(t.conditions, s.durationMet, variables);
  }

  /** The counter after `days` evaluations of one condition on unchanged variables. */
  function Repeat(c: Condition, durationMet: nat, variables: map<string, Variable>, days: nat): nat
  {
    if days == 0 then durationMet else StepCondition(c, Repeat(c, durationMet, variables, days - 1), variables).durationMet
  }

  /** Hysteresis: a condition that holds is counted once per evaluation, and on the
      `days`-th evaluation from a reset counter it is satisfied exactly when
      `days` has reached its (non-zero) duration. */
  lemma {:induction false} Hysteresis(c: Condition, variables: map<string, Variable>, days: nat)
    requires c.variableId in variables && Holds(c.op, variables[c.variableId].value, c.threshold)
    requires days >= 1
    ensures Repeat(c, 0, variables, days) == days
    ensures StepCondition(c, Repeat(c, 0, variables, days - 1), variables).satisfied <==>
      c.duration == 0 || days >= c.duration
  {
    if days > 1 {
      Hysteresis(c, variables, days - 1);
    }
  }

  // ---------------------------------------------------------------------------
  // The catalogue and lookups

  /** The 25 triggers of the catalogue, in order, in five groups of five. */
  const Catalogue: seq<Trigger> := CatalogueA + CatalogueB + CatalogueC + CatalogueD + CatalogueE

  const CatalogueA: seq<Trigger> := [
    Trigger("green_tech_boom", "Green-Tech-Boom",
            [Condition(Name(Co2ReductionPath), Gt, 60.0, 30),
             Condition(Name(EconomicGrowth), Gt, 1.5, 15)],
            [(Name(InvestmentAttractiveness), 20.0), (Name(EconomicGrowth), 1.2), (Name(TaxRevenue), 35.0),
             (Name(FutureViabilityIndex), 15.0), (Name(Popularity), 8.0)],
            0.0, true, 0.8, Some(Business)),
    Trigger("rating_downgrade", "Rating-Agentur Warnung",
            [Condition(Name(Debt), Lt, -100.0, 30)],
            [(Name(InterestCosts), 8.0), (Name(InvestmentAttractiveness), -15.0),
             (Name(FinancialSustainability), -20.0), (Name(Popularity), -5.0), (Name(CoalitionLiberal), -10.0)],
            5.0, false, 0.9, None),
    Trigger("debt_crisis", "Schuldenkrise droht",
            [Condition(Name(Debt), Lt, -200.0, 60)],
            [(Name(InterestCosts), 15.0), (Name(InvestmentAttractiveness), -30.0),
             (Name(FinancialSustainability), -35.0), (Name(Popularity), -15.0),
             (Name(CoalitionLiberal), -25.0), (Name(CoalitionSocial), -20.0)],
            20.0, true, 1.0, None),
    Trigger("eu_climate_leader_bonus", "EU-Klimavorreiter-Bonus",
            [Condition(Name(Co2ReductionPath), Gt, 70.0, 90)],
            [(Name(TaxRevenue), 25.0), (Name(EnergySecurity), 10.0), (Name(Popularity), 12.0),
             (Name(FutureViabilityIndex), 10.0)],
            0.0, true, 0.7, Some(EU)),
    Trigger("eu_deficit_procedure", "EU-Defizitverfahren",
            [Condition(Name(Debt), Lt, -150.0, 180), Condition(Name(FinancialSustainability), Lt, 25.0, 90)],
            [(Name(InvestmentAttractiveness), -20.0), (Name(Popularity), -10.0),
             (Name(CoalitionLiberal), -15.0), (Name(CoalitionSocial), -10.0)],
            10.0, true, 0.9, Some(EU))
  ]

  const CatalogueB: seq<Trigger> := [
    Trigger("eu_digital_partnership", "EU-Digitalpakt",
            [Condition(Name(DigitalizationIndex), Gt, 75.0, 60)],
            [(Name(DigitalizationIndex), 15.0), (Name(InvestmentAttractiveness), 12.0),
             (Name(FutureViabilityIndex), 8.0), (Name(TaxRevenue), 15.0)],
            0.0, true, 0.6, Some(EU)),
    Trigger("us_trade_partnership", "US-Handelspartnerschaft gestärkt",
            [Condition(Name(InvestmentAttractiveness), Gt, 75.0, 90),
             Condition(Name(DigitalizationIndex), Gt, 60.0, 60)],
            [(Name(EconomicGrowth), 0.8), (Name(InvestmentAttractiveness), 15.0),
             (Name(ForeignDependency), -10.0), (Name(TaxRevenue), 20.0)],
            0.0, true, 0.5, Some(USA)),
    Trigger("us_security_concerns", "US-Sicherheitsbedenken",
            [Condition(Name(VariableId.Security), Lt, 40.0, 180)],
            [(Name(VariableId.Security), -10.0), (Name(ForeignDependency), 5.0), (Name(Popularity), -5.0)],
            0.0, false, 0.7, Some(USA)),
    Trigger("china_tech_competition", "China-Tech-Wettbewerb",
            [Condition(Name(DigitalizationIndex), Gt, 70.0, 90)],
            [(Name(ForeignDependency), -8.0), (Name(InvestmentAttractiveness), 10.0), (Name(VariableId.Security), 5.0),
             (Name(FutureViabilityIndex), 12.0)],
            0.0, true, 0.6, Some(China)),
    Trigger("china_investment_pullback", "China-Investitionen gehen zurück",
            [Condition(Name(ForeignDependency), Lt, 45.0, 120)],
            [(Name(InvestmentAttractiveness), -12.0), (Name(EconomicGrowth), -0.5),
             (Name(ForeignDependency), -5.0)],
            0.0, true, 0.8, Some(China))
  ]

  const CatalogueC: seq<Trigger> := [
    Trigger("social_unrest_inequality", "Soziale Unruhen wegen Ungleichheit",
            [Condition(Name(GiniCoefficient), Gt, 0.38, 120),
             Condition(Name(MedianIncome), Lt, 51000.0, 90)],
            [(Name(Popularity), -20.0), (Name(CoalitionSocial), -15.0), (Name(VariableId.Security), -8.0),
             (Name(InvestmentAttractiveness), -10.0)],
            0.0, true, 0.7, None),
    Trigger("demographic_bonus", "Demografischer Bonus",
            [Condition(Name(ImmigrationEu), Gt, 250000.0, 365),
             Condition(Name(ImmigrationNonEu), Gt, 500000.0, 365)],
            [(Name(AgeRatio), -3.0), (Name(EconomicGrowth), 0.4), (Name(TaxRevenue), 15.0),
             (Name(FutureViabilityIndex), 8.0)],
            0.0, true, 0.4, None),
    Trigger("migration_crisis", "Migrationskrise",
            [Condition(Name(ImmigrationNonEu), Gt, 600000.0, 180)],
            [(Name(Popularity), -15.0), (Name(VariableId.Security), -12.0), (Name(CoalitionLiberal), -8.0),
             (Name(CoalitionSocial), -5.0)],
            0.0, false, 0.6, None),
    Trigger("climate_disaster", "Klimakatastrophe",
            [Condition(Name(Co2ReductionPath), Lt, 40.0, 365)],
            [(Name(EconomicGrowth), -1.5), (Name(Popularity), -10.0), (Name(CoalitionSocial), 8.0)],
            25.0, false, 0.3, None),
    Trigger("energy_independence", "Energie-Unabhängigkeit erreicht",
            [Condition(Name(RenewableElectricity), Gt, 85.0, 90),
             Condition(Name(EnergySecurity), Gt, 80.0, 60)],
            [(Name(EnergySecurity), 15.0), (Name(ForeignDependency), -20.0), (Name(Popularity), 15.0),
             (Name(InvestmentAttractiveness), 18.0), (Name(FutureViabilityIndex), 20.0)],
            0.0, true, 0.8, None)
  ]

  const CatalogueD: seq<Trigger> := [
    Trigger("ai_breakthrough", "KI-Durchbruch in Deutschland",
            [Condition(Name(DigitalizationIndex), Gt, 80.0, 120),
             Condition(Name(InvestmentAttractiveness), Gt, 70.0, 90)],
            [(Name(DigitalizationIndex), 20.0), (Name(InvestmentAttractiveness), 25.0),
             (Name(FutureViabilityIndex), 25.0), (Name(EconomicGrowth), 1.5), (Name(TaxRevenue), 30.0)],
            0.0, true, 0.3, None),
    Trigger("cyber_attack", "Cyber-Angriff auf Infrastruktur",
            [Condition(Name(DigitalizationIndex), Gt, 60.0, 90), Condition(Name(VariableId.Security), Lt, 50.0, 120)],
            [(Name(VariableId.Security), -15.0), (Name(DigitalizationIndex), -10.0), (Name(EconomicGrowth), -0.8),
             (Name(Popularity), -12.0)],
            15.0, false, 0.4, None),
    Trigger("coalition_crisis", "Koalitionskrise droht",
            [Condition(Name(CoalitionLiberal), Lt, 25.0, 60),
             Condition(Name(CoalitionSocial), Lt, 25.0, 60)],
            [(Name(Popularity), -15.0), (Name(CoalitionLiberal), -10.0), (Name(CoalitionSocial), -10.0),
             (Name(InvestmentAttractiveness), -12.0)],
            0.0, false, 0.8, None),
    Trigger("media_campaign", "Medienkampagne gegen Regierung",
            [Condition(Name(Popularity), Lt, 30.0, 90)],
            [(Name(Popularity), -8.0), (Name(CoalitionLiberal), -5.0), (Name(CoalitionSocial), -5.0)],
            0.0, false, 0.6, Some(Media)),
    Trigger("international_recognition", "Internationale Anerkennung",
            [Condition(Name(OverallRating), Gt, 75.0, 120)],
            [(Name(Popularity), 12.0), (Name(InvestmentAttractiveness), 15.0),
             (Name(ForeignDependency), -8.0), (Name(FutureViabilityIndex), 10.0)],
            0.0, true, 0.5, None)
  ]

  const CatalogueE: seq<Trigger> := [
    Trigger("global_recession", "Globale Rezession",
            [Condition(Name(EconomicGrowth), Lt, -1.0, 90)],
            [(Name(EconomicGrowth), -2.0), (Name(Unemployment), 1.5), (Name(TaxRevenue), -40.0),
             (Name(InvestmentAttractiveness), -20.0), (Name(Popularity), -18.0)],
            30.0, true, 0.2, None),
    Trigger("innovation_wave", "Innovationswelle",
            [Condition(Name(FutureViabilityIndex), Gt, 70.0, 180),
             Condition(Name(InvestmentAttractiveness), Gt, 80.0, 120)],
            [(Name(EconomicGrowth), 2.2), (Name(InvestmentAttractiveness), 20.0),
             (Name(FutureViabilityIndex), 15.0), (Name(TaxRevenue), 45.0), (Name(Unemployment), -0.8)],
            0.0, true, 0.4, Some(Business)),
    Trigger("health_system_crisis", "Gesundheitssystem-Krise",
            [Condition(Name(AgeRatio), Gt, 42.0, 180)],
            [(Name(Popularity), -12.0), (Name(CoalitionSocial), -15.0), (Name(MedianIncome), -500.0)],
            20.0, true, 0.5, None),
    Trigger("brain_drain", "Brain Drain",
            [Condition(Name(Emigration), Gt, 200000.0, 180),
             Condition(Name(DigitalizationIndex), Lt, 50.0, 120)],
            [(Name(FutureViabilityIndex), -15.0), (Name(EconomicGrowth), -0.6),
             (Name(DigitalizationIndex), -8.0), (Name(InvestmentAttractiveness), -10.0)],
            0.0, true, 0.6, None),
    Trigger("skilled_worker_boom", "Fachkräfte-Zustrom",
            [Condition(Name(InvestmentAttractiveness), Gt, 75.0, 120),
             Condition(Name(ImmigrationEu), Gt, 300000.0, 90)],
            [(Name(Unemployment), -0.5), (Name(EconomicGrowth), 0.8), (Name(DigitalizationIndex), 12.0),
             (Name(FutureViabilityIndex), 10.0), (Name(AgeRatio), -2.0)],
            0.0, true, 0.5, None)
  ]

  /** Every trigger starts untriggered with all counters at zero. */
  function InitialStates(triggers: seq<Trigger>): (r: seq<TriggerState>)
    ensures Aligned(triggers, r)
    ensures forall i :: 0 <= i < |r| ==>
      !r[i].triggered && forall c :: 0 <= c < |r[i].durationMet| ==> r[i].durationMet[c] == 0
  {
    seq(|triggers|, i requires 0 <= i < |triggers| => TriggerState(false, Zeros(|triggers[i].conditions|)))
  }

  function Zeros(n: nat): (r: seq<nat>)
    ensures |r| == n && forall i :: 0 <= i < n ==> r[i] == 0
  {
    seq(n, i => 0)
  }

  /** The index of the first trigger with the given id, as `find` gives it. */
  function FindTrigger(triggers: seq<Trigger>, id: string): (r: Option<nat>)
    ensures r.None? <==> forall i :: 0 <= i < |triggers| ==> triggers[i].id != id
    ensures r.Some? ==> r.value < |triggers| && triggers[r.value].id == id
    ensures r.Some? ==> forall i :: 0 <= i < r.value ==> triggers[i].id != id
  {
    if triggers == [] then None
    else if triggers[0].id == id then Some(0)
    else match FindTrigger(triggers[1..], id)
      case None => None
      case Some(k) => Some(k + 1)
  }

  /** `getEventById`. */
  function GetEventById(id: string): (r: Option<Trigger>)
    ensures r.Some? <==> exists i :: 0 <= i < |Catalogue| && Catalogue[i].id == id
    ensures r.Some? ==> r.value in Catalogue && r.value.id == id
  {
    match FindTrigger(Catalogue, id)
    case None => None
    case Some(k) => Some(Catalogue[k])
  }

  /** The triggers tagged with a stakeholder, in order. */
  function FilterByStakeholder(triggers: seq<Trigger>, stakeholder: Stakeholder): (r: seq<Trigger>)
    ensures forall t :: t in r <==> t in triggers && t.stakeholder == Some(stakeholder)
  {
    if triggers == [] then []
    else
      var n := |triggers| - 1;
      var rest := FilterByStakeholder(triggers[..n], stakeholder);
      assert triggers == triggers[..n] + [triggers[n]];
      if triggers[n].stakeholder == Some(stakeholder) then rest + [triggers[n]] else rest
  }

  /** `getEventsByStakeholder`. */
  function GetEventsByStakeholder(stakeholder: Stakeholder): (r: seq<Trigger>)
    ensures forall t :: t in r <==> t in Catalogue && t.stakeholder == Some(stakeholder)
  {
    FilterByStakeholder(Catalogue, stakeholder)
  }

  /** `resetEventTrigger`: the first trigger with the id, if it is repeatable, is
      made untriggered with all its counters cleared; otherwise nothing changes. */
  function ResetTrigger(triggers: seq<Trigger>, states: seq<TriggerState>, id: string): (r: seq<TriggerState>)
    requires Aligned(triggers, states)
    ensures Aligned(triggers, r)
    ensures FindTrigger(triggers, id).None? ==> r == states
    ensures FindTrigger(triggers, id).Some? && triggers[FindTrigger(triggers, id).value].oneTime ==> r == states
    ensures FindTrigger(triggers, id).Some? && !triggers[FindTrigger(triggers, id).value].oneTime ==>
      var k := FindTrigger(triggers, id).value;
      !r[k].triggered && (forall c :: 0 <= c < |r[k].durationMet| ==> r[k].durationMet[c] == 0) &&
      forall i :: 0 <= i < |r| && i != k ==> r[i] == states[i]
  {
    match FindTrigger(triggers, id)
    case None => states
    case Some(k) =>
      if triggers[k].oneTime then states
      else states[k := TriggerState(false, Zeros(|triggers[k].conditions|))]
  }

  /** After a reset, a repeatable trigger evaluates exactly as at the start of the game. */
  lemma ResetRestoresInitial(triggers: seq<Trigger>, states: seq<TriggerState>, id: string)
    requires Aligned(triggers, states)
    requires FindTrigger(triggers, id).Some? && !triggers[FindTrigger(triggers, id).value].oneTime
    ensures var k := FindTrigger(triggers, id).value;
      ResetTrigger(triggers, states, id)[k] == InitialStates(triggers)[k]
  {
  }

  /** A trigger's probability is in (0, 1], its cost is not negative and every
      condition must hold for at least one day. */
  predicate TriggerWellFormed(t: Trigger)
  {
    0.0 < t.probability <= 1.0 && t.cost >= 0.0 &&
    forall c :: 0 <= c < |t.conditions| ==> t.conditions[c].duration > 0
  }

  predicate AllWellFormed(ts: seq<Trigger>)
  {
    forall i :: 0 <= i < |ts| ==> TriggerWellFormed(ts[i])
  }

  /** Every condition of every trigger reads a named variable. */
  ghost predicate ConditionsNamed(ts: seq<Trigger>)
  {
    forall i, c :: 0 <= i < |ts| && 0 <= c < |ts[i].conditions| ==> Named(ts[i].conditions[c].variableId)
  }

  /** Every effect of every trigger changes a named variable. */
  ghost predicate EffectsNamed(ts: seq<Trigger>)
  {
    forall i, e :: 0 <= i < |ts| && 0 <= e < |ts[i].effects| ==> Named(ts[i].effects[e].0)
  }

  lemma AllConcat(a: seq<Trigger>, b: seq<Trigger>)
    ensures AllWellFormed(a) && AllWellFormed(b) ==> AllWellFormed(a + b)
    ensures ConditionsNamed(a) && ConditionsNamed(b) ==> ConditionsNamed(a + b)
    ensures EffectsNamed(a) && EffectsNamed(b) ==> EffectsNamed(a + b)
  {
    if ConditionsNamed(a) && ConditionsNamed(b) {
      forall i, c | 0 <= i < |a + b| && 0 <= c < |(a + b)[i].conditions|
        ensures Named((a + b)[i].conditions[c].variableId)
      {
        if i >= |a| { assert (a + b)[i] == b[i - |a|]; }
      }
    }
    if EffectsNamed(a) && EffectsNamed(b) {
      forall i, e | 0 <= i < |a + b| && 0 <= e < |(a + b)[i].effects|
        ensures Named((a + b)[i].effects[e].0)
      {
        if i >= |a| { assert (a + b)[i] == b[i - |a|]; }
      }
    }
  }

  // Each group of the catalogue, checked on its own.
  lemma GroupAWellFormed() ensures AllWellFormed(CatalogueA) { }
  lemma GroupBWellFormed() ensures AllWellFormed(CatalogueB) { }
  lemma GroupCWellFormed() ensures AllWellFormed(CatalogueC) { }
  lemma GroupDWellFormed() ensures AllWellFormed(CatalogueD) { }
  lemma GroupEWellFormed() ensures AllWellFormed(CatalogueE) { }
  lemma GroupAConditions() ensures ConditionsNamed(CatalogueA) { }
  lemma GroupBConditions() ensures ConditionsNamed(CatalogueB) { }
  lemma GroupCConditions() ensures ConditionsNamed(CatalogueC) { }
  lemma GroupDConditions() ensures ConditionsNamed(CatalogueD) { }
  lemma GroupEConditions() ensures ConditionsNamed(CatalogueE) { }
  lemma GroupAEffects() ensures EffectsNamed(CatalogueA) { }
  lemma GroupBEffects() ensures EffectsNamed(CatalogueB) { }
  lemma GroupCEffects() ensures EffectsNamed(CatalogueC) { }
  lemma GroupDEffects() ensures EffectsNamed(CatalogueD) { }
  lemma GroupEEffects() ensures EffectsNamed(CatalogueE) { }

  /** The catalogue: 25 triggers with probabilities in (0, 1], non-negative
      costs and positive durations. */
  lemma CatalogueWellFormed()
    ensures |Catalogue| == 25
    ensures forall i :: 0 <= i < |Catalogue| ==> TriggerWellFormed(Catalogue[i])
  {
    GroupAWellFormed(); GroupBWellFormed(); GroupCWellFormed(); GroupDWellFormed(); GroupEWellFormed();
    AllConcat(CatalogueA, CatalogueB);
    AllConcat(CatalogueA + CatalogueB, CatalogueC);
    AllConcat(CatalogueA + CatalogueB + CatalogueC, CatalogueD);
    AllConcat(CatalogueA + CatalogueB + CatalogueC + CatalogueD, CatalogueE);
  }

  /** Every variable a trigger of the catalogue reads or changes is a key of the
      variable record. */
  lemma CatalogueVariablesKnown()
    ensures forall i, c :: 0 <= i < |Catalogue| && 0 <= c < |Catalogue[i].conditions| ==>
      Catalogue[i].conditions[c].variableId in Keys
    ensures forall i, e :: 0 <= i < |Catalogue| && 0 <= e < |Catalogue[i].effects| ==>
      Catalogue[i].effects[e].0 in Keys
  {
    GroupAConditions(); GroupBConditions(); GroupCConditions(); GroupDConditions(); GroupEConditions();
    GroupAEffects(); GroupBEffects(); GroupCEffects(); GroupDEffects(); GroupEEffects();
    AllConcat(CatalogueA, CatalogueB);
    AllConcat(CatalogueA + CatalogueB, CatalogueC);
    AllConcat(CatalogueA + CatalogueB + CatalogueC, CatalogueD);
    AllConcat(CatalogueA + CatalogueB + CatalogueC + CatalogueD, CatalogueE);
    forall i, c | 0 <= i < |Catalogue| && 0 <= c < |Catalogue[i].conditions|
      ensures Catalogue[i].conditions[c].variableId in Keys
    {
      NamedIsKey(Catalogue[i].conditions[c].variableId);
    }
    forall i, e | 0 <= i < |Catalogue| && 0 <= e < |Catalogue[i].effects|
      ensures Catalogue[i].effects[e].0 in Keys
    {
      NamedIsKey(Catalogue[i].effects[e].0);
    }
  }

  /** The ids of the triggers, in order. */
  function Ids(ts: seq<Trigger>): (r: seq<string>)
    ensures |r| == |ts| && forall i :: 0 <= i < |ts| ==> r[i] == ts[i].id
  {
    seq(|ts|, i requires 0 <= i < |ts| => ts[i].id)
  }

  lemma IdsConcat(a: seq<Trigger>, b: seq<Trigger>)
    ensures Ids(a + b) == Ids(a) + Ids(b)
  {
    assert forall i :: 0 <= i < |a + b| ==> Ids(a + b)[i] == (Ids(a) + Ids(b))[i];
  }

  // The ids compared group by group.
  lemma GroupADistinct() ensures Distinct(Ids(CatalogueA)) { }
  lemma GroupBDistinct() ensures Distinct(Ids(CatalogueB)) { }
  lemma GroupCDistinct() ensures Distinct(Ids(CatalogueC)) { }
  lemma GroupDDistinct() ensures Distinct(Ids(CatalogueD)) { }
  lemma GroupEDistinct() ensures Distinct(Ids(CatalogueE)) { }
  lemma GroupsABApart() ensures Apart(Ids(CatalogueA), Ids(CatalogueB)) { }
  lemma GroupsACApart() ensures Apart(Ids(CatalogueA), Ids(CatalogueC)) { }
  lemma GroupsADApart() ensures Apart(Ids(CatalogueA), Ids(CatalogueD)) { }
  lemma GroupsAEApart() ensures Apart(Ids(CatalogueA), Ids(CatalogueE)) { }
  lemma GroupsBCApart() ensures Apart(Ids(CatalogueB), Ids(CatalogueC)) { }
  lemma GroupsBDApart() ensures Apart(Ids(CatalogueB), Ids(CatalogueD)) { }
  lemma GroupsBEApart() ensures Apart(Ids(CatalogueB), Ids(CatalogueE)) { }
  lemma GroupsCDApart() ensures Apart(Ids(CatalogueC), Ids(CatalogueD)) { }
  lemma GroupsCEApart() ensures Apart(Ids(CatalogueC), Ids(CatalogueE)) { }
  lemma GroupsDEApart() ensures Apart(Ids(CatalogueD), Ids(CatalogueE)) { }

  /** No two triggers of the catalogue share an id. */
  lemma CatalogueIdsDistinct()
    ensures Distinct(Ids(Catalogue))
    ensures forall i, j :: 0 <= i < j < |Catalogue| ==> Catalogue[i].id != Catalogue[j].id
  {
    GroupADistinct(); GroupBDistinct(); GroupCDistinct(); GroupDDistinct(); GroupEDistinct();
    GroupsABApart(); GroupsACApart(); GroupsADApart(); GroupsAEApart(); GroupsBCApart();
    GroupsBDApart(); GroupsBEApart(); GroupsCDApart(); GroupsCEApart(); GroupsDEApart();
    var a, b, c, d, f := Ids(CatalogueA), Ids(CatalogueB), Ids(CatalogueC), Ids(CatalogueD), Ids(CatalogueE);
    IdsConcat(CatalogueA, CatalogueB);
    IdsConcat(CatalogueA + CatalogueB, CatalogueC);
    IdsConcat(CatalogueA + CatalogueB + CatalogueC, CatalogueD);
    IdsConcat(CatalogueA + CatalogueB + CatalogueC + CatalogueD, CatalogueE);
    DistinctConcat(a, b);
    ApartConcat(a, b, c);
    DistinctConcat(a + b, c);
    ApartConcat(a, b, d);
    ApartConcat(a + b, c, d);
    DistinctConcat(a + b + c, d);
    ApartConcat(a, b, f);
    ApartConcat(a + b, c, f);
    ApartConcat(a + b + c, d, f);
    DistinctConcat(a + b + c + d, f);
  }

  // ---------------------------------------------------------------------------
  // The catalogue against the record as declared

  /** Each trigger's id and effects, in the record's own spelling and order. */
  function EffectTable(ts: seq<Trigger>): (r: seq<(string, seq<(string, real)>)>)
    ensures |r| == |ts| && forall i :: 0 <= i < |ts| ==> r[i] == (ts[i].id, ts[i].effects)
  {
    seq(|ts|, i requires 0 <= i < |ts| => (ts[i].id, ts[i].effects))
  }

  lemma EffectTableConcat(a: seq<Trigger>, b: seq<Trigger>)
    ensures EffectTable(a + b) == EffectTable(a) + EffectTable(b)
  {
    assert forall i :: 0 <= i < |a + b| ==> EffectTable(a + b)[i] == (EffectTable(a) + EffectTable(b))[i];
  }

  /** The effects of `events.ts` written out with the variable keys as strings,
      group by group. */
  const DeclaredA: seq<(string, seq<(string, real)>)> := [
    ("green_tech_boom",
     [("investment_attractiveness", 20.0), ("economic_growth", 1.2), ("tax_revenue", 35.0),
      ("future_viability_index", 15.0), ("popularity", 8.0)]),
    ("rating_downgrade",
     [("interest_costs", 8.0), ("investment_attractiveness", -15.0), ("financial_sustainability",
      -20.0), ("popularity", -5.0), ("coalition_liberal", -10.0)]),
    ("debt_crisis",
     [("interest_costs", 15.0), ("investment_attractiveness", -30.0), ("financial_sustainability",
      -35.0), ("popularity", -15.0), ("coalition_liberal", -25.0), ("coalition_social", -20.0)]),
    ("eu_climate_leader_bonus",
     [("tax_revenue", 25.0), ("energy_security", 10.0), ("popularity", 12.0),
      ("future_viability_index", 10.0)]),
    ("eu_deficit_procedure",
     [("investment_attractiveness", -20.0), ("popularity", -10.0), ("coalition_liberal", -15.0),
      ("coalition_social", -10.0)])
  ]

  const DeclaredB: seq<(string, seq<(string, real)>)> := [
    ("eu_digital_partnership",
     [("digitalization_index", 15.0), ("investment_attractiveness", 12.0), ("future_viability_index",
      8.0), ("tax_revenue", 15.0)]),
    ("us_trade_partnership",
     [("economic_growth", 0.8), ("investment_attractiveness", 15.0), ("foreign_dependency", -10.0),
      ("tax_revenue", 20.0)]),
    ("us_security_concerns",
     [("security", -10.0), ("foreign_dependency", 5.0), ("popularity", -5.0)]),
    ("china_tech_competition",
     [("foreign_dependency", -8.0), ("investment_attractiveness", 10.0), ("security", 5.0),
      ("future_viability_index", 12.0)]),
    ("china_investment_pullback",
     [("investment_attractiveness", -12.0), ("economic_growth", -0.5), ("foreign_dependency", -5.0)])
  ]

  const DeclaredC: seq<(string, seq<(string, real)>)> := [
    ("social_unrest_inequality",
     [("popularity", -20.0), ("coalition_social", -15.0), ("security", -8.0),
      ("investment_attractiveness", -10.0)]),
    ("demographic_bonus",
     [("age_ratio", -3.0), ("economic_growth", 0.4), ("tax_revenue", 15.0), ("future_viability_index",
      8.0)]),
    ("migration_crisis",
     [("popularity", -15.0), ("security", -12.0), ("coalition_liberal", -8.0), ("coalition_social",
      -5.0)]),
    ("climate_disaster",
     [("economic_growth", -1.5), ("popularity", -10.0), ("coalition_social", 8.0)]),
    ("energy_independence",
     [("energy_security", 15.0), ("foreign_dependency", -20.0), ("popularity", 15.0),
      ("investment_attractiveness", 18.0), ("future_viability_index", 20.0)])
  ]

  const DeclaredD: seq<(string, seq<(string, real)>)> := [
    ("ai_breakthrough",
     [("digitalization_index", 20.0), ("investment_attractiveness", 25.0), ("future_viability_index",
      25.0), ("economic_growth", 1.5), ("tax_revenue", 30.0)]),
    ("cyber_attack",
     [("security", -15.0), ("digitalization_index", -10.0), ("economic_growth", -0.8), ("popularity",
      -12.0)]),
    ("coalition_crisis",
     [("popularity", -15.0), ("coalition_liberal", -10.0), ("coalition_social", -10.0),
      ("investment_attractiveness", -12.0)]),
    ("media_campaign",
     [("popularity", -8.0), ("coalition_liberal", -5.0), ("coalition_social", -5.0)]),
    ("international_recognition",
     [("popularity", 12.0), ("investment_attractiveness", 15.0), ("foreign_dependency", -8.0),
      ("future_viability_index", 10.0)])
  ]

  const DeclaredE: seq<(string, seq<(string, real)>)> := [
    ("global_recession",
     [("economic_growth", -2.0), ("unemployment", 1.5), ("tax_revenue", -40.0),
      ("investment_attractiveness", -20.0), ("popularity", -18.0)]),
    ("innovation_wave",
     [("economic_growth", 2.2), ("investment_attractiveness", 20.0), ("future_viability_index", 15.0),
      ("tax_revenue", 45.0), ("unemployment", -0.8)]),
    ("health_system_crisis",
     [("popularity", -12.0), ("coalition_social", -15.0), ("median_income", -500.0)]),
    ("brain_drain",
     [("future_viability_index", -15.0), ("economic_growth", -0.6), ("digitalization_index", -8.0),
      ("investment_attractiveness", -10.0)]),
    ("skilled_worker_boom",
     [("unemployment", -0.5), ("economic_growth", 0.8), ("digitalization_index", 12.0),
      ("future_viability_index", 10.0), ("age_ratio", -2.0)])
  ]

  lemma GroupAAsDeclared() ensures EffectTable(CatalogueA) == DeclaredA { }
  lemma GroupBAsDeclared() ensures EffectTable(CatalogueB) == DeclaredB { }
  lemma GroupCAsDeclared() ensures EffectTable(CatalogueC) == DeclaredC { }
  lemma GroupDAsDeclared() ensures EffectTable(CatalogueD) == DeclaredD { }
  lemma GroupEAsDeclared() ensures EffectTable(CatalogueE) == DeclaredE { }

  /** Every trigger of the catalogue has the id and exactly the effects, with
      their deltas and in their order, that the record declares. */
  lemma CatalogueAsDeclared()
    ensures EffectTable(Catalogue) == DeclaredA + DeclaredB + DeclaredC + DeclaredD + DeclaredE
  {
    GroupAAsDeclared(); GroupBAsDeclared(); GroupCAsDeclared(); GroupDAsDeclared(); GroupEAsDeclared();
    EffectTableConcat(CatalogueA, CatalogueB);
    EffectTableConcat(CatalogueA + CatalogueB, CatalogueC);
    EffectTableConcat(CatalogueA + CatalogueB + CatalogueC, CatalogueD);
    EffectTableConcat(CatalogueA + CatalogueB + CatalogueC + CatalogueD, CatalogueE);
  }

  /** The climate disaster costs 25 and moves economic growth by -1.5,
      popularity by -10 and the social coalition partner by +8. */
  lemma ClimateDisasterEffects()
    ensures Catalogue[13].id == "climate_disaster" && Catalogue[13].cost == 25.0
    ensures Catalogue[13].effects == [("economic_growth", -1.5), ("popularity", -10.0), ("coalition_social", 8.0)]
  {
    CatalogueAsDeclared();
    assert EffectTable(Catalogue)[13] == DeclaredC[3];
  }
}
