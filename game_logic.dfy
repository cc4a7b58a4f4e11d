/**
 * The rules the game engine applies to its state, as values: clamped effects on
 * the bounded variables with their history points, the budget-then-debt
 * settlement of costs, the interest rate, the weighted overall rating, the
 * yearly report with its grade and recommendations, and how a decision's
 * selected options are resolved and checked. The engine in `GameEngine` changes
 * its fields as these functions say.
 */
module GameLogic {
  import opened Types
  import TimeManager

  // ---------------------------------------------------------------------------
  // Bounded variables and their history

  /** `Math.max(lo, Math.min(hi, x))`. */
  function Clamp(x: real, lo: real, hi: real): (r: real)
    ensures lo <= hi ==> lo <= r <= hi
    ensures lo <= x <= hi ==> r == x
    ensures lo <= hi < x ==> r == hi
    ensures x < lo ==> r == lo
  {
    var capped := if hi < x then hi else x;
    if capped < lo then lo else capped
  }

  /** Every variable lies within its bounds. */
  predicate InBounds(vars: map<string, Variable>)
  {
    forall k :: k in vars ==> vars[k].minValue <= vars[k].value <= vars[k].maxValue
  }

  /** Every variable has a range of positive width. */
  predicate Spread(vars: map<string, Variable>)
  {
    forall k :: k in vars ==> vars[k].minValue < vars[k].maxValue
  }

  /** `b` holds the variables of `a` with the same ids, bounds and categories,
      each history extended at its end. */
  predicate Extends(a: map<string, Variable>, b: map<string, Variable>)
  {
    a.Keys == b.Keys &&
    forall k :: k in a ==>
      b[k].id == a[k].id && b[k].minValue == a[k].minValue && b[k].maxValue == a[k].maxValue &&
      b[k].category == a[k].category &&
      |a[k].history| <= |b[k].history| && b[k].history[..|a[k].history|] == a[k].history
  }

  lemma ExtendsTransitive(a: map<string, Variable>, b: map<string, Variable>, c: map<string, Variable>)
    requires Extends(a, b) && Extends(b, c)
    ensures Extends(a, c)
  {
    forall k | k in a
      ensures c[k].history[..|a[k].history|] == a[k].history
    {
      assert c[k].history[..|a[k].history|] == c[k].history[..|b[k].history|][..|a[k].history|];
    }
  }

  /** What a history point records besides the value: when, from what and why. */
  datatype Cause = Cause(date: GameDate, source: Source, sourceId: Option<string>, explanation: string)

  /** One effect: a change of one variable by `delta`. */
  datatype Change = Change(variableId: string, delta: real, cause: Cause)

  /** The variable after one effect: the clamped value, and a history point for it. */
  function Shift(v: Variable, delta: real, cause: Cause): Variable
  {
    var value := Clamp(v.value + delta, v.minValue, v.maxValue);
    v.(value := value,
       history := v.history + [HistoryPoint(cause.date, value, cause.source, cause.sourceId, cause.explanation)])
  }

  /** An effect on an unknown variable is skipped. */
  function ApplyChange(vars: map<string, Variable>, c: Change): map<string, Variable>
  {
    if c.variableId in vars then vars[c.variableId := Shift(vars[c.variableId], c.delta, c.cause)] else vars
  }

  /** The effects applied one after another, in order. */
  function ApplyChanges(vars: map<string, Variable>, changes: seq<Change>): map<string, Variable>
  {
    if changes == [] then vars
    else ApplyChange(ApplyChanges(vars, changes[..|changes| - 1]), changes[|changes| - 1])
  }

  /** One effect on a known variable sets it to the clamped sum and appends exactly
      one history point with that value and the effect's cause; every other
      variable is untouched, and bounds are kept. */
  lemma ChangeEffect(vars: map<string, Variable>, c: Change)
    requires c.variableId in vars && vars[c.variableId].minValue <= vars[c.variableId].maxValue
    ensures var v, r := vars[c.variableId], ApplyChange(vars, c)[c.variableId];
      v.minValue <= r.value <= v.maxValue &&
      r.value == Clamp(v.value + c.delta, v.minValue, v.maxValue) &&
      |r.history| == |v.history| + 1 && r.history[..|v.history|] == v.history &&
      r.history[|v.history|] == HistoryPoint(c.cause.date, r.value, c.cause.source, c.cause.sourceId, c.cause.explanation)
    ensures forall k :: k in vars && k != c.variableId ==> ApplyChange(vars, c)[k] == vars[k]
  {
  }

  lemma ChangeExtends(vars: map<string, Variable>, c: Change)
    ensures Extends(vars, ApplyChange(vars, c))
    ensures Spread(vars) ==> Spread(ApplyChange(vars, c))
    ensures InBounds(vars) && Spread(vars) ==> InBounds(ApplyChange(vars, c))
  {
    if c.variableId in vars {
      var v := vars[c.variableId];
      assert Shift(v, c.delta, c.cause).history[..|v.history|] == v.history;
    }
  }

  /** Effects keep every variable with its bounds and within them, and only
      append to histories. */
  lemma {:induction false} ChangesExtend(vars: map<string, Variable>, changes: seq<Change>)
    ensures Extends(vars, ApplyChanges(vars, changes))
    ensures Spread(vars) ==> Spread(ApplyChanges(vars, changes))
    ensures InBounds(vars) && Spread(vars) ==> InBounds(ApplyChanges(vars, changes))
  {
    if changes != [] {
      var init := changes[..|changes| - 1];
      var mid := ApplyChanges(vars, init);
      ChangesExtend(vars, init);
      ChangeExtends(mid, changes[|changes| - 1]);
      ExtendsTransitive(vars, mid, ApplyChanges(vars, changes));
    }
  }

  /** Applying two lists of effects is applying their concatenation. */
  lemma {:induction false} ChangesConcat(vars: map<string, Variable>, a: seq<Change>, b: seq<Change>)
    ensures ApplyChanges(vars, a + b) == ApplyChanges(ApplyChanges(vars, a), b)
  {
    if b == [] {
      assert a + b == a;
    } else {
      var init := b[..|b| - 1];
      assert (a + b)[..|a + b| - 1] == a + init;
      assert (a + b)[|a + b| - 1] == b[|b| - 1];
      ChangesConcat(vars, a, init);
      calc {
        ApplyChanges(vars, a + b);
        ApplyChange(ApplyChanges(vars, a + init), b[|b| - 1]);
        ApplyChange(ApplyChanges(ApplyChanges(vars, a), init), b[|b| - 1]);
        ApplyChanges(ApplyChanges(vars, a), b);
      }
    }
  }

  /** The number of effects on variable `k`. */
  function CountFor(changes: seq<Change>, k: string): nat
  {
    if changes == [] then 0
    else CountFor(changes[..|changes| - 1], k) + (if changes[|changes| - 1].variableId == k then 1 else 0)
  }

  /** All effects carry the same date, source and source id. */
  predicate Uniform(changes: seq<Change>, date: GameDate, source: Source, sourceId: Option<string>)
  {
    forall i :: 0 <= i < |changes| ==>
      changes[i].cause.date == date && changes[i].cause.source == source && changes[i].cause.sourceId == sourceId
  }

  /** A known variable gains exactly one history point per effect on it, each
      with the date, source and source id the effects carry. */
  lemma {:induction false} ChangesHistory(vars: map<string, Variable>, changes: seq<Change>, k: string,
                                          date: GameDate, source: Source, sourceId: Option<string>)
    requires k in vars && Uniform(changes, date, source, sourceId)
    ensures k in ApplyChanges(vars, changes)
    ensures var h, h' := vars[k].history, ApplyChanges(vars, changes)[k].history;
      |h'| == |h| + CountFor(changes, k) &&
      forall j :: |h| <= j < |h'| ==> h'[j].date == date && h'[j].source == source && h'[j].sourceId == sourceId
  {
    ChangesExtend(vars, changes);
    if changes != [] {
      var init := changes[..|changes| - 1];
      var c := changes[|changes| - 1];
      ChangesExtend(vars, init);
      ChangesHistory(vars, init, k, date, source, sourceId);
      var mid := ApplyChanges(vars, init);
      if c.variableId == k {
        assert ApplyChanges(vars, changes)[k].history == mid[k].history + [HistoryPoint(date, ApplyChanges(vars, changes)[k].value, source, sourceId, c.cause.explanation)];
      } else {
        assert ApplyChanges(vars, changes)[k] == mid[k];
      }
    }
  }

  // ---------------------------------------------------------------------------
  // Effects of decisions and events

  /** The immediate effects of one option, recorded as decision effects. */
  function OptionChanges(effects: seq<(string, OptionEffect)>, date: GameDate, decisionId: string): seq<Change>
  {
    if effects == [] then []
    else
      var e := effects[|effects| - 1];
      OptionChanges(effects[..|effects| - 1], date, decisionId) +
        [Change(e.0, e.1.immediate, Cause(date, FromDecision, Some(decisionId), e.1.explanation))]
  }

  /** The effects of the resolved options, option by option. */
  function DecisionChanges(options: seq<DecisionOption>, date: GameDate, decisionId: string): seq<Change>
  {
    if options == [] then []
    else DecisionChanges(options[..|options| - 1], date, decisionId) +
         OptionChanges(options[|options| - 1].effects, date, decisionId)
  }

  lemma {:induction false} OptionChangesUniform(effects: seq<(string, OptionEffect)>, date: GameDate, decisionId: string)
    ensures Uniform(OptionChanges(effects, date, decisionId), date, FromDecision, Some(decisionId))
    ensures |OptionChanges(effects, date, decisionId)| == |effects|
  {
    if effects != [] {
      OptionChangesUniform(effects[..|effects| - 1], date, decisionId);
    }
  }

  /** Every effect of a decision is recorded with the decision's date, the source
      'decision' and the decision's id. */
  lemma {:induction false} DecisionChangesUniform(options: seq<DecisionOption>, date: GameDate, decisionId: string)
    ensures Uniform(DecisionChanges(options, date, decisionId), date, FromDecision, Some(decisionId))
  {
    if options != [] {
      DecisionChangesUniform(options[..|options| - 1], date, decisionId);
      OptionChangesUniform(options[|options| - 1].effects, date, decisionId);
    }
  }

  /** The effects of one fired trigger, recorded as event effects. */
  function TriggerChanges(effects: seq<(string, real)>, t: Trigger, date: GameDate): seq<Change>
  {
    if effects == [] then []
    else
      var e := effects[|effects| - 1];
      TriggerChanges(effects[..|effects| - 1], t, date) +
        [Change(e.0, e.1, Cause(date, FromEvent, Some(t.id), "Ereignis: " + t.name))]
  }

  /** The effects of the fired triggers, trigger by trigger. */
  function EventChanges(fired: seq<Trigger>, date: GameDate): seq<Change>
  {
    if fired == [] then []
    else EventChanges(fired[..|fired| - 1], date) +
         TriggerChanges(fired[|fired| - 1].effects, fired[|fired| - 1], date)
  }

  /** The event recorded for a fired trigger. */
  function EventRecord(t: Trigger, date: GameDate): GameEvent
  {
    GameEvent(t.id, t.name, date, t.effects, t.cost, Neutral, t.stakeholder, Medium)
  }

  function EventRecords(fired: seq<Trigger>, date: GameDate): seq<GameEvent>
  {
    if fired == [] then []
    else EventRecords(fired[..|fired| - 1], date) + [EventRecord(fired[|fired| - 1], date)]
  }

  /** Exactly one event per fired trigger, in order, each of medium importance,
      dated the day of the evaluation and costing the trigger's cost. */
  lemma {:induction false} EventRecordsFacts(fired: seq<Trigger>, date: GameDate)
    ensures |EventRecords(fired, date)| == |fired|
    ensures forall i :: 0 <= i < |fired| ==>
      var e := EventRecords(fired, date)[i];
      e.triggerId == fired[i].id && e.importance == Medium && e.cost == fired[i].cost && e.date == date
  {
    if fired != [] {
      EventRecordsFacts(fired[..|fired| - 1], date);
    }
  }

  // ---------------------------------------------------------------------------
  // Budget, debt and interest

  /** The budget of the year and the debt, which is kept as a non-positive number. */
  datatype Ledger = Ledger(budget: real, debt: real)

  /** A positive cost is paid from the budget; what the budget cannot cover
      becomes debt. A cost of zero or less changes nothing. */
  function Settle(l: Ledger, cost: real): (r: Ledger)
    ensures cost <= 0.0 ==> r == l
    ensures cost > 0.0 ==> r.budget + r.debt == l.budget + l.debt - cost
    ensures l.budget >= 0.0 ==> r.budget >= 0.0
    ensures l.budget >= 0.0 ==> r.budget <= l.budget
    ensures r.debt <= l.debt
    ensures r.debt < l.debt <==> cost > 0.0 && cost > l.budget
  {
    if cost <= 0.0 then l
    else if l.budget >= cost then Ledger(l.budget - cost, l.debt)
    else Ledger(0.0, l.debt - (cost - l.budget))
  }

  /** The costs of the fired triggers settled one after another. */
  function SettleEach(l: Ledger, fired: seq<Trigger>): Ledger
  {
    if fired == [] then l else Settle(SettleEach(l, fired[..|fired| - 1]), fired[|fired| - 1].cost)
  }

  /** The sum of the positive costs. */
  function PositiveCosts(fired: seq<Trigger>): real
  {
    if fired == [] then 0.0
    else PositiveCosts(fired[..|fired| - 1]) + (if fired[|fired| - 1].cost > 0.0 then fired[|fired| - 1].cost else 0.0)
  }

  /** Settling the events' costs takes exactly their positive sum out of budget
      plus debt, never drives a non-negative budget below zero and never lowers
      the debt's burden. */
  lemma {:induction false} SettleEachBalance(l: Ledger, fired: seq<Trigger>)
    ensures SettleEach(l, fired).budget + SettleEach(l, fired).debt == l.budget + l.debt - PositiveCosts(fired)
    ensures l.budget >= 0.0 ==> SettleEach(l, fired).budget >= 0.0
    ensures SettleEach(l, fired).debt <= l.debt
  {
    if fired != [] {
      SettleEachBalance(l, fired[..|fired| - 1]);
    }
  }

  function Abs(x: real): (r: real)
    ensures r >= 0.0 && (r == x || r == -x)
  {
    if x < 0.0 then -x else x
  }

  /** `3.0 + Math.abs(debt) / 100 * 0.3`. */
  function InterestRate(debt: real): (r: real)
    ensures r >= 3.0
    ensures r == 3.0 <==> debt == 0.0
  {
    3.0 + Abs(debt) / 100.0 * 0.3
  }

  /** More debt never means a lower rate. */
  lemma InterestGrowsWithDebt(debt1: real, debt2: real)
    requires debt2 <= debt1 <= 0.0
    ensures InterestRate(debt2) >= InterestRate(debt1)
  {
  }

  // ---------------------------------------------------------------------------
  // Decisions

  /** `decisions.find(d => d.id === id)`. */
  function FindDecision(decisions: seq<Decision>, id: string): (r: Option<Decision>)
    ensures r.None? <==> forall i :: 0 <= i < |decisions| ==> decisions[i].id != id
    ensures r.Some? ==> r.value in decisions && r.value.id == id
  {
    if decisions == [] then None
    else if decisions[0].id == id then Some(decisions[0])
    else FindDecision(decisions[1..], id)
  }

  /** `options.find(opt => opt.id === id)`. */
  function FindOption(options: seq<DecisionOption>, id: string): (r: Option<DecisionOption>)
    ensures r.None? <==> forall i :: 0 <= i < |options| ==> options[i].id != id
    ensures r.Some? ==> r.value in options && r.value.id == id
  {
    if options == [] then None
    else if options[0].id == id then Some(options[0])
    else FindOption(options[1..], id)
  }

  /** Each selected id resolved to its option, unresolved ids dropped; a repeated
      id gives its option twice. */
  function ResolveOptions(options: seq<DecisionOption>, selected: seq<string>): (r: seq<DecisionOption>)
    ensures |r| <= |selected|
    ensures forall o :: o in r ==> o in options && o.id in selected
    ensures r == [] <==> forall i :: 0 <= i < |selected| ==> FindOption(options, selected[i]).None?
  {
    if selected == [] then []
    else
      var n := |selected| - 1;
      var rest := ResolveOptions(options, selected[..n]);
      assert forall i :: 0 <= i < n ==> selected[..n][i] == selected[i];
      match FindOption(options, selected[n])
      case None => rest
      case Some(o) => rest + [o]
  }

  /** Some resolved option names a selected id (resolved or not) among its conflicts. */
  predicate Conflicts(options: seq<DecisionOption>, selected: seq<string>)
  {
    exists i, j :: 0 <= i < |options| && 0 <= j < |options[i].conflicts| && options[i].conflicts[j] in selected
  }

  /** The sum of the options' costs. */
  function TotalCosts(options: seq<DecisionOption>): real
  {
    if options == [] then 0.0 else TotalCosts(options[..|options| - 1]) + options[|options| - 1].costs
  }

  lemma {:induction false} TotalCostsConcat(a: seq<DecisionOption>, b: seq<DecisionOption>)
    ensures TotalCosts(a + b) == TotalCosts(a) + TotalCosts(b)
  {
    if b == [] {
      assert a + b == a;
    } else {
      assert (a + b)[..|a + b| - 1] == a + b[..|b| - 1];
      assert (a + b)[|a + b| - 1] == b[|b| - 1];
      TotalCostsConcat(a, b[..|b| - 1]);
    }
  }

  /** Each further selected id adds the cost of its option, if it has one. */
  lemma SelectionCharged(options: seq<DecisionOption>, selected: seq<string>, id: string)
    ensures TotalCosts(ResolveOptions(options, selected + [id])) ==
      TotalCosts(ResolveOptions(options, selected)) +
      (if FindOption(options, id).Some? then FindOption(options, id).value.costs else 0.0)
  {
    assert (selected + [id])[..|selected|] == selected;
    var rest := ResolveOptions(options, selected);
    if FindOption(options, id).Some? {
      var o := FindOption(options, id).value;
      assert ResolveOptions(options, selected + [id]) == rest + [o];
      assert (rest + [o])[..|rest|] == rest;
    }
  }

  /** Selecting the same option twice charges it twice. */
  lemma DuplicateChargedTwice(options: seq<DecisionOption>, id: string)
    requires FindOption(options, id).Some?
    ensures TotalCosts(ResolveOptions(options, [id, id])) == 2.0 * FindOption(options, id).value.costs
  {
    SelectionCharged(options, [], id);
    SelectionCharged(options, [id], id);
    assert [] + [id] == [id] && [id] + [id] == [id, id];
  }

  /** Why a decision is turned down, or the options it applies. */
  datatype Verdict = Accepted(options: seq<DecisionOption>) | LimitReached | UnknownDecision | NoOptions | Conflicting

  /** The checks of `makeDecision`, in order: the yearly limit, the decision id,
      at least one resolved option, no conflict among the selection. */
  function Judge(decisionsThisYear: int, maxDecisions: int, decisions: seq<Decision>,
                 decisionId: string, selected: seq<string>): (r: Verdict)
    ensures r == LimitReached <==> !TimeManager.CanMakeDecision(decisionsThisYear, maxDecisions)
    ensures r.Accepted? <==>
      TimeManager.CanMakeDecision(decisionsThisYear, maxDecisions) &&
      FindDecision(decisions, decisionId).Some? &&
      ResolveOptions(FindDecision(decisions, decisionId).value.options, selected) != [] &&
      !Conflicts(ResolveOptions(FindDecision(decisions, decisionId).value.options, selected), selected)
    ensures r.Accepted? ==>
      r.options == ResolveOptions(FindDecision(decisions, decisionId).value.options, selected) &&
      forall o :: o in r.options ==> o.id in selected
  {
    if decisionsThisYear >= maxDecisions then LimitReached
    else match FindDecision(decisions, decisionId)
      case None => UnknownDecision
      case Some(d) =>
        var options := ResolveOptions(d.options, selected);
        if options == [] then NoOptions
        else if Conflicts(options, selected) then Conflicting
        else Accepted(options)
  }

  // ---------------------------------------------------------------------------
  // Overall rating

  const OverallRatingId := "overall_rating"

  /** The weights of `recalculateOverallRating` as written: a negative weight for
      variables where lower is better. */
  const WeightsAsWritten: seq<(string, real)> := [
    ("popularity", 0.15), ("economic_growth", 0.12), ("unemployment", -0.10),
    ("co2_reduction_path", 0.10), ("future_viability_index", 0.10), ("debt", -0.08),
    ("coalition_social", 0.08), ("coalition_liberal", 0.08), ("investment_attractiveness", 0.07),
    ("energy_security", 0.05), ("digitalization_index", 0.05)
  ]

  /** The weights the engine uses: the same, except that the debt variable, which
      is kept as a non-positive number (more debt is lower), weighs positively, so
      that more debt lowers the rating. */
  const Weights: seq<(string, real)> := WeightsAsWritten[5 := ("debt", 0.08)]

  /** The position of a value in its range, in percent. */
  function Normalized(v: Variable): real
    requires v.minValue != v.maxValue
  {
    (v.value - v.minValue) / (v.maxValue - v.minValue) * 100.0
  }

  function Sign(w: real): real
  {
    if w > 0.0 then 1.0 else -1.0
  }

  /** A variable's share of the weighted sum: its position times the size of its
      weight, negated for a negative weight. */
  function Contribution(v: Variable, w: real): real
    requires v.minValue != v.maxValue
  {
    Normalized(v) * Abs(w) * Sign(w)
  }

  /** The running sums of `recalculateOverallRating`. */
  datatype Tally = Tally(score: real, weight: real)

  /** The sums over the first `n` weights; weights of absent variables are skipped. */
  function TallyUpTo(weights: seq<(string, real)>, vars: map<string, Variable>, n: int): Tally
    requires Spread(vars) && 0 <= n <= |weights|
  {
    if n == 0 then Tally(0.0, 0.0)
    else
      var t := TallyUpTo(weights, vars, n - 1);
      var (id, w) := weights[n - 1];
      if id in vars then Tally(t.score + Contribution(vars[id], w), t.weight + Abs(w))
      else t
  }

  /** The first weight is popularity's and is not zero. */
  predicate LeadsWithPopularity(weights: seq<(string, real)>)
  {
    |weights| >= 1 && weights[0].0 == "popularity" && weights[0].1 != 0.0
  }

  predicate DistinctIds(weights: seq<(string, real)>)
  {
    forall i, j :: 0 <= i < j < |weights| ==> weights[i].0 != weights[j].0
  }

  lemma WeightsAsWrittenDistinct()
    ensures LeadsWithPopularity(WeightsAsWritten) && DistinctIds(WeightsAsWritten) && |WeightsAsWritten| == 11
    ensures WeightsAsWritten[5] == ("debt", -0.08)
  {
  }

  lemma WeightTables()
    ensures LeadsWithPopularity(Weights) && DistinctIds(Weights) && |Weights| == 11
    ensures LeadsWithPopularity(WeightsAsWritten) && DistinctIds(WeightsAsWritten) && |WeightsAsWritten| == 11
    ensures Weights[5] == ("debt", 0.08) && WeightsAsWritten[5] == ("debt", -0.08)
  {
    WeightsAsWrittenDistinct();
    assert forall i :: 0 <= i < 11 ==> Weights[i].0 == WeightsAsWritten[i].0;
  }

  /** The total weight never falls, and with popularity present it is at least
      popularity's weight. */
  lemma {:induction false} WeightAtLeast(weights: seq<(string, real)>, vars: map<string, Variable>, n: int)
    requires Spread(vars) && LeadsWithPopularity(weights) && "popularity" in vars && 0 <= n <= |weights|
    ensures TallyUpTo(weights, vars, n).weight >= 0.0
    ensures n >= 1 ==> TallyUpTo(weights, vars, n).weight >= Abs(weights[0].1) > 0.0
  {
    if n > 0 {
      WeightAtLeast(weights, vars, n - 1);
    }
  }

  /** The overall rating: the weighted sum over the total weight, clamped to [5, 98]. */
  function Rating(weights: seq<(string, real)>, vars: map<string, Variable>): (r: real)
    requires Spread(vars) && LeadsWithPopularity(weights) && "popularity" in vars
    ensures 5.0 <= r <= 98.0
  {
    var t := TallyUpTo(weights, vars, |weights|);
    WeightAtLeast(weights, vars, |weights|);
    Clamp(t.score / t.weight, 5.0, 98.0)
  }

  /** The variables with the overall rating's value recomputed and nothing else
      changed, not even its history. */
  function Rerate(vars: map<string, Variable>): map<string, Variable>
    requires Spread(vars) && "popularity" in vars && OverallRatingId in vars
  {
    WeightTables();
    vars[OverallRatingId := vars[OverallRatingId].(value := Rating(Weights, vars))]
  }

  /** The overall rating's bounds are the clamp range. */
  predicate Rateable(vars: map<string, Variable>)
  {
    "popularity" in vars && OverallRatingId in vars &&
    vars[OverallRatingId].minValue == 5.0 && vars[OverallRatingId].maxValue == 98.0
  }

  /** Recomputing the rating keeps every variable within its bounds, and changes
      only the rating's value. */
  lemma RerateKeeps(vars: map<string, Variable>)
    requires Spread(vars) && InBounds(vars) && Rateable(vars)
    ensures Spread(Rerate(vars)) && InBounds(Rerate(vars)) && Rateable(Rerate(vars))
    ensures Rerate(vars).Keys == vars.Keys
    ensures forall k :: k in vars && k != OverallRatingId ==> Rerate(vars)[k] == vars[k]
    ensures Rerate(vars)[OverallRatingId].history == vars[OverallRatingId].history
    ensures Rerate(vars)[OverallRatingId] == vars[OverallRatingId].(value := Rerate(vars)[OverallRatingId].value)
  {
  }

  lemma DivMonotone(a: real, b: real, d: real)
    requires a <= b && d > 0.0
    ensures a / d <= b / d
  {
    assert b / d - a / d == (b - a) / d;
  }

  lemma ClampMonotone(x: real, y: real, lo: real, hi: real)
    requires x <= y && lo <= hi
    ensures Clamp(x, lo, hi) <= Clamp(y, lo, hi)
  {
  }

  /** Setting the `k`-th weighted variable to `x` changes the weighted sum by that
      variable's change of position times its signed weight, and no other sum. */
  lemma {:induction false} TallyShift(weights: seq<(string, real)>, vars: map<string, Variable>, k: int, x: real, n: int)
    requires Spread(vars) && DistinctIds(weights) && 0 <= k < |weights| && weights[k].0 in vars && 0 <= n <= |weights|
    ensures var v := vars[weights[k].0];
      var moved := vars[weights[k].0 := v.(value := x)];
      Spread(moved) &&
      TallyUpTo(weights, moved, n).weight == TallyUpTo(weights, vars, n).weight &&
      var w := weights[k].1;
      TallyUpTo(weights, moved, n).score == TallyUpTo(weights, vars, n).score +
        (if k < n then Contribution(v.(value := x), w) - Contribution(v, w) else 0.0)
  {
    var v := vars[weights[k].0];
    var moved := vars[weights[k].0 := v.(value := x)];
    assert Spread(moved);
    if n > 0 {
      TallyShift(weights, vars, k, x, n - 1);
      if n - 1 != k {
        assert weights[n - 1].0 != weights[k].0;
      }
    }
  }

  lemma DivStrict(a: real, b: real, d: real)
    requires a < b && d > 0.0
    ensures a / d < b / d
  {
    assert b / d - a / d == (b - a) / d;
  }

  /** Moving a variable up moves its position up by a non-negative amount, and by
      a positive amount when it strictly rises. */
  lemma NormalizedRises(v: Variable, x: real)
    requires v.minValue < v.maxValue && v.value <= x
    ensures Normalized(v.(value := x)) - Normalized(v) >= 0.0
    ensures v.value < x ==> Normalized(v.(value := x)) - Normalized(v) > 0.0
  {
    var d := v.maxValue - v.minValue;
    if v.value < x {
      DivStrict(v.value - v.minValue, x - v.minValue, d);
    } else {
      assert v.(value := x) == v;
    }
  }

  /** Raising a variable moves the weighted sum in the direction of its weight's
      sign and leaves the total weight as it is. */
  lemma ScoreFollowsWeight(weights: seq<(string, real)>, vars: map<string, Variable>, k: int, x: real)
    requires Spread(vars) && DistinctIds(weights)
    requires 0 <= k < |weights| && weights[k].0 in vars && vars[weights[k].0].value <= x
    ensures var moved := vars[weights[k].0 := vars[weights[k].0].(value := x)];
      Spread(moved) &&
      TallyUpTo(weights, moved, |weights|).weight == TallyUpTo(weights, vars, |weights|).weight &&
      (weights[k].1 > 0.0 ==> TallyUpTo(weights, moved, |weights|).score >= TallyUpTo(weights, vars, |weights|).score) &&
      (weights[k].1 < 0.0 ==> TallyUpTo(weights, moved, |weights|).score <= TallyUpTo(weights, vars, |weights|).score) &&
      (weights[k].1 > 0.0 && vars[weights[k].0].value < x ==>
         TallyUpTo(weights, moved, |weights|).score > TallyUpTo(weights, vars, |weights|).score) &&
      (weights[k].1 < 0.0 && vars[weights[k].0].value < x ==>
         TallyUpTo(weights, moved, |weights|).score < TallyUpTo(weights, vars, |weights|).score)
  {
    var v := vars[weights[k].0];
    TallyShift(weights, vars, k, x, |weights|);
    NormalizedRises(v, x);
    var delta := Normalized(v.(value := x)) - Normalized(v);
    var w := weights[k].1;
    assert Contribution(v.(value := x), w) - Contribution(v, w) == delta * Abs(w) * Sign(w);
    if w != 0.0 {
      assert Abs(w) > 0.0;
      assert delta * Abs(w) >= 0.0;
      assert v.value < x ==> delta * Abs(w) > 0.0;
    }
  }

  /** With the same total weight, a higher weighted sum never gives a lower rating. */
  lemma RatingFollowsScore(weights: seq<(string, real)>, vars: map<string, Variable>, moved: map<string, Variable>)
    requires Spread(vars) && Spread(moved) && LeadsWithPopularity(weights) && "popularity" in vars && "popularity" in moved
    requires TallyUpTo(weights, moved, |weights|).weight == TallyUpTo(weights, vars, |weights|).weight
    requires TallyUpTo(weights, vars, |weights|).score <= TallyUpTo(weights, moved, |weights|).score
    ensures Rating(weights, vars) <= Rating(weights, moved)
  {
    var t, t' := TallyUpTo(weights, vars, |weights|), TallyUpTo(weights, moved, |weights|);
    WeightAtLeast(weights, vars, |weights|);
    DivMonotone(t.score, t'.score, t.weight);
    ClampMonotone(t.score / t.weight, t'.score / t'.weight, 5.0, 98.0);
  }

  /** Raising a variable with a positive weight never lowers the rating, and
      raising one with a negative weight never raises it. */
  lemma RatingFollowsWeight(weights: seq<(string, real)>, vars: map<string, Variable>, k: int, x: real)
    requires Spread(vars) && LeadsWithPopularity(weights) && DistinctIds(weights) && "popularity" in vars
    requires 0 <= k < |weights| && weights[k].0 in vars && vars[weights[k].0].value <= x
    ensures var moved := vars[weights[k].0 := vars[weights[k].0].(value := x)];
      Spread(moved) && "popularity" in moved &&
      (weights[k].1 > 0.0 ==> Rating(weights, moved) >= Rating(weights, vars)) &&
      (weights[k].1 < 0.0 ==> Rating(weights, moved) <= Rating(weights, vars))
  {
    var moved := vars[weights[k].0 := vars[weights[k].0].(value := x)];
    ScoreFollowsWeight(weights, vars, k, x);
    if weights[k].1 > 0.0 {
      RatingFollowsScore(weights, vars, moved);
    } else if weights[k].1 < 0.0 {
      RatingFollowsScore(weights, moved, vars);
    }
  }

  /** As written, the debt variable (non-positive, lower is more debt) weighs
      negatively: taking on more debt strictly raises the weighted score and
      never lowers the rating. */
  lemma MoreDebtRaisesScoreAsWritten(vars: map<string, Variable>, x: real)
    requires Spread(vars) && "popularity" in vars && "debt" in vars && x < vars["debt"].value
    ensures var moved := vars["debt" := vars["debt"].(value := x)];
      Spread(moved) &&
      TallyUpTo(WeightsAsWritten, moved, 11).score > TallyUpTo(WeightsAsWritten, vars, 11).score &&
      Rating(WeightsAsWritten, moved) >= Rating(WeightsAsWritten, vars)
  {
    WeightsAsWrittenDistinct();
    var moved := vars["debt" := vars["debt"].(value := x)];
    ScoreFollowsWeight(WeightsAsWritten, moved, 5, vars["debt"].value);
    assert moved["debt" := moved["debt"].(value := vars["debt"].value)] == vars;
    RatingFollowsScore(WeightsAsWritten, vars, moved);
  }

  /** With the corrected weight, taking on more debt strictly lowers the weighted
      score and never raises the rating. */
  lemma MoreDebtLowersScore(vars: map<string, Variable>, x: real)
    requires Spread(vars) && "popularity" in vars && "debt" in vars && x < vars["debt"].value
    ensures var moved := vars["debt" := vars["debt"].(value := x)];
      Spread(moved) &&
      TallyUpTo(Weights, moved, 11).score < TallyUpTo(Weights, vars, 11).score &&
      Rating(Weights, moved) <= Rating(Weights, vars)
  {
    WeightTables();
    var moved := vars["debt" := vars["debt"].(value := x)];
    ScoreFollowsWeight(Weights, moved, 5, vars["debt"].value);
    assert moved["debt" := moved["debt"].(value := vars["debt"].value)] == vars;
    RatingFollowsScore(Weights, moved, vars);
  }

  // ---------------------------------------------------------------------------
  // Yearly report

  /** `history.find(h => h.date.year === year && h.date.month === 1)?.value`. */
  function JanuaryValue(history: seq<HistoryPoint>, year: int): (r: Option<real>)
    ensures r.None? <==> forall i :: 0 <= i < |history| ==> !(history[i].date.year == year && history[i].date.month == 1)
  {
    if history == [] then None
    else if history[0].date.year == year && history[0].date.month == 1 then Some(history[0].value)
    else JanuaryValue(history[1..], year)
  }

  /** The value of the last history point of the year, if any. */
  function LastValueOfYear(history: seq<HistoryPoint>, year: int): (r: Option<real>)
    ensures r.None? <==> forall i :: 0 <= i < |history| ==> history[i].date.year != year
  {
    if history == [] then None
    else if history[|history| - 1].date.year == year then Some(history[|history| - 1].value)
    else LastValueOfYear(history[..|history| - 1], year)
  }

  /** `x || fallback` for an optional number: missing or 0 gives the fallback. */
  function OrElse(x: Option<real>, fallback: real): real
  {
    if x.Some? && x.value != 0.0 then x.value else fallback
  }

  /** Start, end and change of one variable over the year. */
  function YearChange(v: Variable, year: int): VariableChange
  {
    var start := OrElse(JanuaryValue(v.history, year), v.value);
    var end := OrElse(LastValueOfYear(v.history, year), v.value);
    VariableChange(start, end, end - start)
  }

  /** A variable without history points in the year shows no change over it. */
  lemma QuietYear(v: Variable, year: int)
    requires forall i :: 0 <= i < |v.history| ==> v.history[i].date.year != year
    ensures YearChange(v, year) == VariableChange(v.value, v.value, 0.0)
  {
  }

  /** `variableChanges` is a map from each variable id; a missing or zero change
      of the overall rating counts as 0. */
  function OverallChange(changes: map<string, VariableChange>): real
  {
    if OverallRatingId in changes then OrElse(Some(changes[OverallRatingId].change), 0.0) else 0.0
  }

  /** The grade of a change in the overall rating. */
  function GradeFor(change: real): (g: Grade)
    ensures g != C
    ensures g == APlus <==> change > 15.0
    ensures g == A <==> 10.0 < change <= 15.0
    ensures g == BPlus <==> 5.0 < change <= 10.0
    ensures g == B <==> 0.0 < change <= 5.0
    ensures g == CPlus <==> -5.0 < change <= 0.0
    ensures g == DPlus <==> -10.0 < change <= -5.0
    ensures g == D <==> -15.0 < change <= -10.0
    ensures g == F <==> change <= -15.0
  {
    if change > 15.0 then APlus
    else if change > 10.0 then A
    else if change > 5.0 then BPlus
    else if change > 0.0 then B
    else if change > -5.0 then CPlus
    else if change > -10.0 then DPlus
    else if change > -15.0 then D
    else F
  }

  /** The order of the grades, F lowest. */
  function Rank(g: Grade): nat
  {
    match g
    case F => 0
    case D => 1
    case DPlus => 2
    case C => 3
    case CPlus => 4
    case B => 5
    case BPlus => 6
    case A => 7
    case APlus => 8
  }

  /** A larger change never earns a lower grade. */
  lemma GradeMonotone(x: real, y: real)
    requires x <= y
    ensures Rank(GradeFor(x)) <= Rank(GradeFor(y))
  {
  }

  /** The pieces of advice a report can give. */
  datatype Advice = Consolidate | ReachOut | Compromise | ProtectClimate

  function AdviceText(a: Advice): string
  {
    match a
    case Consolidate => "Schuldenstand kritisch - dringende Konsolidierung nötig"
    case ReachOut => "Niedrige Popularität - mehr Bürgernahe Maßnahmen erforderlich"
    case Compromise => "Koalition instabil - Kompromisse mit Partnern suchen"
    case ProtectClimate => "Klimaziele in Gefahr - verstärkte Anstrengungen nötig"
  }

  /** `variables[id]?.value < threshold`; an absent variable compares false. */
  predicate Below(vars: map<string, Variable>, id: string, threshold: real)
  {
    id in vars && vars[id].value < threshold
  }

  /** When each piece of advice is due; the debt advice reads the debt variable. */
  predicate Applies(vars: map<string, Variable>, a: Advice)
  {
    match a
    case Consolidate => Below(vars, "debt", -100.0)
    case ReachOut => Below(vars, "popularity", 30.0)
    case Compromise => Below(vars, "coalition_social", 25.0) || Below(vars, "coalition_liberal", 25.0)
    case ProtectClimate => Below(vars, "co2_reduction_path", 40.0)
  }

  predicate Distinct(s: seq<Advice>)
  {
    forall i, j :: 0 <= i < j < |s| ==> s[i] != s[j]
  }

  /** The advice `a` if it applies, else nothing. */
  function Pick(vars: map<string, Variable>, a: Advice): seq<Advice>
  {
    if Applies(vars, a) then [a] else []
  }

  /** `generateRecommendations`: the checks in order debt, popularity,
      coalition, climate, each pushing its advice when it applies. */
  function Recommendations(vars: map<string, Variable>): seq<Advice>
  {
    Pick(vars, Consolidate) + Pick(vars, ReachOut) + Pick(vars, Compromise) + Pick(vars, ProtectClimate)
  }

  /** Where an advice sits in the order of the checks. */
  function Position(a: Advice): int
  {
    match a
    case Consolidate => 0
    case ReachOut => 1
    case Compromise => 2
    case ProtectClimate => 3
  }

  predicate InCheckOrder(s: seq<Advice>)
  {
    forall i, j :: 0 <= i < j < |s| ==> Position(s[i]) < Position(s[j])
  }

  /** Appending the advice of one later check keeps the order. */
  lemma OrderedConcat(a: seq<Advice>, b: seq<Advice>, k: int)
    requires InCheckOrder(a) && |b| <= 1
    requires forall i :: 0 <= i < |a| ==> Position(a[i]) < k
    requires forall i :: 0 <= i < |b| ==> Position(b[i]) == k
    ensures InCheckOrder(a + b)
    ensures forall i :: 0 <= i < |a + b| ==> Position((a + b)[i]) <= k
  {
    forall i | 0 <= i < |a + b|
      ensures Position((a + b)[i]) <= k
    {
      if i >= |a| {
        assert (a + b)[i] == b[i - |a|];
      }
    }
  }

  /** The recommendations hold exactly the advice that applies, in the order of
      the checks, so each at most once. */
  lemma RecommendationsExact(vars: map<string, Variable>)
    ensures forall a :: a in Recommendations(vars) <==> Applies(vars, a)
    ensures InCheckOrder(Recommendations(vars)) && Distinct(Recommendations(vars))
  {
    var p0, p1, p2, p3 := Pick(vars, Consolidate), Pick(vars, ReachOut), Pick(vars, Compromise), Pick(vars, ProtectClimate);
    var r := Recommendations(vars);
    forall a
      ensures a in r <==> Applies(vars, a)
    {
      assert a in r <==> a in p0 || a in p1 || a in p2 || a in p3;
    }
    OrderedConcat(p0, p1, 1);
    OrderedConcat(p0 + p1, p2, 2);
    OrderedConcat(p0 + p1 + p2, p3, 3);
  }

  /** The texts of the advice, in order. */
  function Texts(advice: seq<Advice>): seq<string>
  {
    seq(|advice|, i requires 0 <= i < |advice| => AdviceText(advice[i]))
  }

  /** Checking one more advice adds its text exactly when it applies. */
  lemma TextsPick(advice: seq<Advice>, vars: map<string, Variable>, a: Advice)
    ensures Texts(advice + Pick(vars, a)) == Texts(advice) + (if Applies(vars, a) then [AdviceText(a)] else [])
  {
  }

  /** The number of decisions taken in the year. */
  function DecisionsIn(decisions: seq<DecisionResult>, year: int): nat
  {
    if decisions == [] then 0
    else DecisionsIn(decisions[..|decisions| - 1], year) + (if decisions[|decisions| - 1].date.year == year then 1 else 0)
  }

  /** The events of the year of high or critical importance, in order. */
  function MajorEventsIn(events: seq<GameEvent>, year: int): seq<GameEvent>
  {
    if events == [] then []
    else
      var e := events[|events| - 1];
      MajorEventsIn(events[..|events| - 1], year) +
        (if e.date.year == year && (e.importance == High || e.importance == Critical) then [e] else [])
  }

  /** Events recorded at medium importance never make a report's major events. */
  lemma {:induction false} NoMajorEvents(events: seq<GameEvent>, year: int)
    requires forall i :: 0 <= i < |events| ==> events[i].importance == Medium
    ensures MajorEventsIn(events, year) == []
  {
    if events != [] {
      NoMajorEvents(events[..|events| - 1], year);
    }
  }

  /** `variables[id]?.value || fallback`. */
  function ValueOr(vars: map<string, Variable>, id: string, fallback: real): real
  {
    if id in vars then OrElse(Some(vars[id].value), fallback) else fallback
  }

  /** `generateYearlyReport`. */
  function GenerateYearlyReport(decisionHistory: seq<DecisionResult>, events: seq<GameEvent>,
                                vars: map<string, Variable>, coalitionStability: real,
                                year: int, skipped: bool): YearlyReport
  {
    var changes := map k | k in vars :: YearChange(vars[k], year);
    YearlyReport(year, DecisionsIn(decisionHistory, year), MajorEventsIn(events, year), changes,
                 coalitionStability, ValueOr(vars, "popularity", 50.0), ValueOr(vars, "economic_growth", 0.0),
                 Texts(Recommendations(vars)), GradeFor(OverallChange(changes)), skipped)
  }

  /** A year in which the overall rating got no history point is graded C+, as is
      one that starts and ends on the same rating. */
  lemma QuietYearGradesCPlus(decisionHistory: seq<DecisionResult>, events: seq<GameEvent>,
                             vars: map<string, Variable>, coalitionStability: real, year: int, skipped: bool)
    requires OverallRatingId in vars
    requires forall i :: 0 <= i < |vars[OverallRatingId].history| ==> vars[OverallRatingId].history[i].date.year != year
    ensures GenerateYearlyReport(decisionHistory, events, vars, coalitionStability, year, skipped).grade == CPlus
    ensures GenerateYearlyReport(decisionHistory, events, vars, coalitionStability, year, skipped).variableChanges[OverallRatingId].change == 0.0
  {
    QuietYear(vars[OverallRatingId], year);
  }

  /** A report counts exactly the decisions of its year. */
  lemma {:induction false} DecisionsInAppend(decisions: seq<DecisionResult>, d: DecisionResult, year: int)
    ensures DecisionsIn(decisions + [d], year) == DecisionsIn(decisions, year) + (if d.date.year == year then 1 else 0)
  {
    assert (decisions + [d])[..|decisions + [d]| - 1] == decisions;
  }
}
