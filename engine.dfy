/**
 * The game engine object and the actions that change it in place: taking a
 * decision, one tick of the running game clock (a day passes, the year may
 * turn, triggers are evaluated and fired events applied), the two time jumps
 * and the timer switches of the decision tab. Each action is proved to move
 * the engine's state exactly as the matching transition of `GameState`
 * does, and so to keep the invariant `Valid`.
 */
module GameEngine {
  import opened Types
  import TimeManager
  import Variables
  import Events
  import opened GameLogic
  import GameState

  /** The effects applied one after another to a copy of the variables. */
  method ApplyEffects(vars: map<string, Variable>, changes: seq<Change>) returns (r: map<string, Variable>)
    ensures r == ApplyChanges(vars, changes)
  {
    r := vars;
    var i := 0;
    while i < |changes|
      invariant 0 <= i <= |changes|
      invariant r == ApplyChanges(vars, changes[..i])
    {
      var c := changes[i];
      if c.variableId in r {
        var v := r[c.variableId];
        var value := Clamp(v.value + c.delta, v.minValue, v.maxValue);
        r := r[c.variableId := v.(value := value,
          history := v.history + [HistoryPoint(c.cause.date, value, c.cause.source, c.cause.sourceId, c.cause.explanation)])];
      }
      assert changes[..i + 1][..i] == changes[..i];
      i := i + 1;
    }
    assert changes[..|changes|] == changes;
  }

  /** The fired triggers processed in order on values: one event recorded per
      trigger, its effects applied, its cost settled. */
  method ProcessEvents(recorded: seq<GameEvent>, vars: map<string, Variable>, books: Ledger,
                       fired: seq<Trigger>, date: GameDate)
    returns (recorded': seq<GameEvent>, vars': map<string, Variable>, books': Ledger)
    ensures recorded' == recorded + EventRecords(fired, date)
    ensures vars' == ApplyChanges(vars, EventChanges(fired, date))
    ensures books' == SettleEach(books, fired)
  {
    recorded', vars', books' := recorded, vars, books;
    var i := 0;
    while i < |fired|
      invariant 0 <= i <= |fired|
      invariant recorded' == recorded + EventRecords(fired[..i], date)
      invariant vars' == ApplyChanges(vars, EventChanges(fired[..i], date))
      invariant books' == SettleEach(books, fired[..i])
    {
      var t := fired[i];
      assert fired[..i + 1][..i] == fired[..i];
      recorded' := recorded' + [EventRecord(t, date)];
      var changes := TriggerChanges(t.effects, t, date);
      ChangesConcat(vars, EventChanges(fired[..i], date), changes);
      vars' := ApplyEffects(vars', changes);
      if t.cost > 0.0 {
        if books'.budget >= t.cost {
          books' := Ledger(books'.budget - t.cost, books'.debt);
        } else {
          books' := Ledger(0.0, books'.debt - (t.cost - books'.budget));
        }
      }
      i := i + 1;
    }
    assert fired[..|fired|] == fired;
  }

  /** `recalculateOverallRating` on a copy of the variables: the weighted
      average of the weighted variables, clamped to [5, 98], becomes the
      rating's value. */
  method RecalculateOverallRating(vars: map<string, Variable>) returns (r: map<string, Variable>)
    requires Spread(vars) && "popularity" in vars && OverallRatingId in vars
    ensures r == Rerate(vars)
  {
    WeightTables();
    var score, weight := 0.0, 0.0;
    var i := 0;
    while i < |Weights|
      invariant 0 <= i <= |Weights|
      invariant Tally(score, weight) == TallyUpTo(Weights, vars, i)
    {
      var (id, w) := Weights[i];
      if id in vars {
        var v := vars[id];
        var normalized := (v.value - v.minValue) / (v.maxValue - v.minValue) * 100.0;
        score := score + normalized * Abs(w) * (if w > 0.0 then 1.0 else -1.0);
        weight := weight + Abs(w);
      }
      i := i + 1;
    }
    WeightAtLeast(Weights, vars, |Weights|);
    var rating := Clamp(score / weight, 5.0, 98.0);
    r := vars[OverallRatingId := vars[OverallRatingId].(value := rating)];
  }

  /** One check of `generateRecommendations`: push the advice text when it applies. */
  method PushAdvice(r: seq<string>, ghost advice: seq<Advice>, vars: map<string, Variable>, a: Advice)
    returns (r': seq<string>)
    requires r == Texts(advice)
    ensures r' == Texts(advice + Pick(vars, a))
  {
    r' := r;
    if Applies(vars, a) {
      r' := r' + [AdviceText(a)];
    }
    TextsPick(advice, vars, a);
  }

  /** `generateRecommendations`: the advice pushed in the order the checks are
      made, as texts. */
  method GenerateRecommendations(vars: map<string, Variable>) returns (r: seq<string>)
    ensures r == Texts(Recommendations(vars))
  {
    r := PushAdvice([], [], vars, Consolidate);
    assert [] + Pick(vars, Consolidate) == Pick(vars, Consolidate);
    r := PushAdvice(r, Pick(vars, Consolidate), vars, ReachOut);
    r := PushAdvice(r, Pick(vars, Consolidate) + Pick(vars, ReachOut), vars, Compromise);
    r := PushAdvice(r, Pick(vars, Consolidate) + Pick(vars, ReachOut) + Pick(vars, Compromise), vars, ProtectClimate);
  }

  /** The game hook: one state value that every action replaces by an updated
      copy of itself. */
  class Engine {
    var state: GameState.State

    predicate Valid()
      reads this
    {
      GameState.Valid(state)
    }

    /** The initial game state. */
    constructor(decisions: seq<Decision>)
      ensures state == GameState.Initial(decisions)
      ensures Valid()
    {
      state := GameState.Initial(decisions);
      GameState.InitialValid(decisions);
    }

    /** `makeDecision`: over the yearly limit, with an unknown decision, with no
        known option or with conflicting options nothing changes; otherwise the
        decision is counted and recorded, the options' effects are applied in
        order, the total cost is paid from the budget and then by new debt, the
        interest rate follows the debt when there was a cost, and the rating is
        recomputed. */
    method MakeDecision(decisionId: string, selected: seq<string>) returns (verdict: Verdict)
      requires Valid()
      modifies this
      ensures verdict == Judge(old(state).decisionsThisYear, old(state).maxDecisionsPerYear,
                               old(state).decisions, decisionId, selected)
      ensures state == GameState.Decide(old(state), decisionId, selected)
      ensures Valid()
    {
      GameState.DecideValid(state, decisionId, selected);
      verdict := Judge(state.decisionsThisYear, state.maxDecisionsPerYear, state.decisions, decisionId, selected);
      if verdict.Accepted? {
        state := Accept(state, verdict.options, decisionId, selected);
      }
    }

    /** The body of `makeDecision` for an accepted decision, on a copy of the
        state: the decision is counted and recorded, the options' effects are
        applied in order, the total cost is paid from the budget and then by new
        debt, the interest rate follows the debt when there was a cost, and the
        rating is recomputed. */
    static method Accept(prev: GameState.State, options: seq<DecisionOption>, decisionId: string, selected: seq<string>)
      returns (next: GameState.State)
      requires GameState.Sound(prev.variables)
      ensures next == GameState.Accept(prev, options, decisionId, selected)
    {
      var cost := TotalCosts(options);
      next := prev.(decisionsThisYear := prev.decisionsThisYear + 1,
                    decisionHistory := prev.decisionHistory + [DecisionResult(decisionId, selected, prev.currentDate, cost)]);
      var changes := DecisionChanges(options, prev.currentDate, decisionId);
      var vars := ApplyEffects(next.variables, changes);
      GameState.EffectsKeepSound(next.variables, changes);
      if cost > 0.0 {
        if next.budget >= cost {
          next := next.(budget := next.budget - cost);
        } else {
          var remaining := cost - next.budget;
          next := next.(budget := 0.0, debt := next.debt - remaining);
        }
        next := next.(interestRate := InterestRate(next.debt));
      }
      assert Ledger(next.budget, next.debt) == Settle(Ledger(prev.budget, prev.debt), cost);
      vars := RecalculateOverallRating(vars);
      next := next.(variables := vars);
    }

    /** `processTriggeredEvents` on a copy of the state: for each fired trigger,
        in order, one event is recorded, the trigger's effects are applied as
        event effects, and its cost is paid from the budget and then by new
        debt. */
    static method ProcessTriggeredEvents(prev: GameState.State, fired: seq<Trigger>) returns (next: GameState.State)
      ensures next == prev.(events := prev.events + EventRecords(fired, prev.currentDate),
                            variables := ApplyChanges(prev.variables, EventChanges(fired, prev.currentDate)),
                            budget := SettleEach(Ledger(prev.budget, prev.debt), fired).budget,
                            debt := SettleEach(Ledger(prev.budget, prev.debt), fired).debt)
    {
      var recorded, vars, books := ProcessEvents(prev.events, prev.variables, Ledger(prev.budget, prev.debt), fired, prev.currentDate);
      next := prev.(events := recorded, variables := vars, budget := books.budget, debt := books.debt);
    }

    /** One tick of the running clock (one second, one game day). Outside the
        decision tab or with the timer stopped nothing happens; otherwise the
        state moves one day on as `GameState.Advance` moves it, with one draw in
        [0, 1) per trigger, and the triggers that fired are returned. */
    method Tick(draws: seq<real>) returns (fired: seq<Trigger>)
      requires Valid() && |draws| == |state.triggers|
      modifies this
      ensures !old(state).isInDecisionTab || !old(state).timer.isRunning ==> state == old(state) && fired == []
      ensures old(state).isInDecisionTab && old(state).timer.isRunning ==>
        GameState.NextDay(old(state).currentDate, state.currentDate) &&
        fired == GameState.Fired(old(state), draws) &&
        state == GameState.Advance(old(state), state.currentDate, draws)
      ensures Valid()
    {
      fired := [];
      var prev := state;
      if !prev.isInDecisionTab || !prev.timer.isRunning {
        return;
      }
      var newDate := TimeManager.AddDays(prev.currentDate, 1);
      GameState.AdvanceValid(prev, newDate, draws);
      var next := prev.(currentDate := newDate);
      if newDate.year != prev.currentDate.year {
        var report := GenerateYearlyReport(prev.decisionHistory, prev.events, prev.variables,
                                           prev.coalitionStability, prev.currentDate.year, false);
        next := next.(yearlyReports := prev.yearlyReports[prev.currentDate.year := report],
                      decisionsThisYear := 0, budget := prev.annualBudget);
      }
      var newStates;
      fired, newStates := Events.CheckEventTriggers(prev.triggers, prev.triggerStates, prev.variables, draws);
      next := next.(triggerStates := newStates);
      next := ProcessTriggeredEvents(next, fired);
      state := next;
    }

    /** `jumpToNextYear`: the state moves as `GameState.NextYear` moves it. */
    method JumpToNextYear()
      requires Valid()
      modifies this
      ensures state == GameState.NextYear(old(state))
      ensures Valid()
    {
      var prev := state;
      GameState.NextYearValid(prev);
      var report := GenerateYearlyReport(prev.decisionHistory, prev.events, prev.variables,
                                         prev.coalitionStability, prev.currentDate.year, true);
      state := prev.(currentDate := TimeManager.JumpToNextYear(prev.currentDate),
                     decisionsThisYear := 0, budget := prev.annualBudget,
                     yearlyReports := prev.yearlyReports[prev.currentDate.year := report]);
    }

    /** `jumpToLegislatureEnd`: the state moves as `GameState.LegislatureEnd`
        moves it; the skipped reports are added one year at a time. */
    method JumpToLegislatureEnd()
      requires Valid()
      modifies this
      ensures state == GameState.LegislatureEnd(old(state))
      ensures Valid()
    {
      var prev := state;
      GameState.LegislatureEndValid(prev);
      var target := TimeManager.JumpToLegislatureEnd(prev.currentDate);
      var reports := prev.yearlyReports;
      var year := prev.currentDate.year;
      while year <= target.year
        invariant prev.currentDate.year <= year && (year <= target.year + 1 || year == prev.currentDate.year)
        invariant reports == GameState.FillReports(prev, prev.yearlyReports, prev.currentDate.year, year - 1)
      {
        if year !in reports {
          reports := reports[year := GameState.ReportOf(prev, year, true)];
        }
        year := year + 1;
      }
      if target.year < prev.currentDate.year {
        assert reports == prev.yearlyReports;
        assert reports == GameState.FillReports(prev, prev.yearlyReports, prev.currentDate.year, target.year);
      } else {
        assert year - 1 == target.year;
        assert reports == GameState.FillReports(prev, prev.yearlyReports, prev.currentDate.year, target.year);
      }
      state := prev.(currentDate := target, decisionsThisYear := 0, budget := prev.annualBudget,
                     yearlyReports := reports);
    }

    /** `startTimer`: only inside the decision tab the timer is started. */
    method StartTimer(now: int)
      requires Valid()
      modifies this
      ensures state == old(state).(timer :=
        if old(state).isInDecisionTab then TimeManager.StartTimer(old(state).timer, now) else old(state).timer)
      ensures Valid()
    {
      if state.isInDecisionTab {
        state := state.(timer := TimeManager.StartTimer(state.timer, now));
      }
    }

    /** `pauseTimer`: the running session's time is added to the elapsed time. */
    method PauseTimer(now: int)
      requires Valid()
      modifies this
      ensures state == old(state).(timer := TimeManager.PauseTimer(old(state).timer, now))
      ensures Valid()
    {
      state := state.(timer := TimeManager.PauseTimer(state.timer, now));
    }

    /** `setInDecisionTab`: the flag is set; entering starts the timer through a
        `startTimer` that still sees the flag as it was before the call, leaving
        pauses it. */
    method SetInDecisionTab(inTab: bool, now: int)
      requires Valid()
      modifies this
      ensures state == old(state).(isInDecisionTab := inTab, timer :=
        if !inTab then TimeManager.PauseTimer(old(state).timer, now)
        else if old(state).isInDecisionTab then TimeManager.StartTimer(old(state).timer, now)
        else old(state).timer)
      ensures Valid()
    {
      var wasInTab := state.isInDecisionTab;
      state := state.(isInDecisionTab := inTab);
      if inTab {
        if wasInTab {
          StartTimer(now);
        }
      } else {
        PauseTimer(now);
      }
    }
  }
}
