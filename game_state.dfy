/**
 * The game state as a value and the transitions the engine's actions make on
 * it: a decision, the passing of one day, the jump to the next year and the
 * jump to the end of the legislature. `Valid` is the invariant every
 * transition keeps; the lemmas state what each transition promises.
 */
module GameState {
  import opened Types
  import TimeManager
  import Variables
  import Events
  import opened GameLogic

  /** The fields of the game state the engine works on. */
  datatype State = State(
    currentDate: GameDate, timer: Timer, isInDecisionTab: bool,
    decisionsThisYear: int, maxDecisionsPerYear: int,
    budget: real, annualBudget: real, debt: real, interestRate: real,
    variables: map<string, Variable>, decisions: seq<Decision>, decisionHistory: seq<DecisionResult>,
    triggers: seq<Trigger>, triggerStates: seq<TriggerState>, events: seq<GameEvent>,
    yearlyReports: map<int, YearlyReport>, coalitionStability: real)

  /** The variable part of the invariant: every variable within its bounds, with
      popularity and the rating present and the rating ranging over [5, 98]. */
  predicate Sound(vars: map<string, Variable>)
  {
    Spread(vars) && InBounds(vars) && Rateable(vars)
  }

  predicate AllMedium(events: seq<GameEvent>)
  {
    forall i :: 0 <= i < |events| ==> events[i].importance == Medium
  }

  /** The invariant: a real date, at most the yearly number of decisions, one
      counter per trigger condition, sound variables, a budget that never goes
      negative, a debt that never turns into credit, an interest rate of at least
      3 %, and events recorded at medium importance. */
  predicate Valid(s: State)
  {
    TimeManager.IsNormalized(s.currentDate) && s.currentDate.year >= 2025 &&
    0 <= s.decisionsThisYear <= s.maxDecisionsPerYear &&
    Events.Aligned(s.triggers, s.triggerStates) &&
    Sound(s.variables) &&
    0.0 <= s.budget && 0.0 <= s.annualBudget && s.debt <= 0.0 && s.interestRate >= 3.0 &&
    AllMedium(s.events)
  }

  lemma ExtendsRateable(a: map<string, Variable>, b: map<string, Variable>)
    requires Extends(a, b) && Rateable(a)
    ensures Rateable(b)
  {
    assert OverallRatingId in a;
  }

  /** Effects keep the variables sound. */
  lemma EffectsKeepSound(vars: map<string, Variable>, changes: seq<Change>)
    requires Sound(vars)
    ensures Sound(ApplyChanges(vars, changes))
  {
    ChangesExtend(vars, changes);
    ExtendsRateable(vars, ApplyChanges(vars, changes));
  }

  // ---------------------------------------------------------------------------
  // The initial state

  /** A fresh game over the given variables and trigger conditions. */
  function Start(decisions: seq<Decision>, vars: map<string, Variable>, triggers: seq<Trigger>): State
  {
    State(TimeManager.GameStart, TimeManager.CreateTimer(), false,
          0, TimeManager.MaxDecisionsPerYear,
          25.0, 25.0, 0.0, 3.0,
          vars, decisions, [],
          triggers, Events.InitialStates(triggers), [],
          map[], 75.0)
  }

  /** The state the game starts in. */
  function Initial(decisions: seq<Decision>): State
  {
    Start(decisions, Variables.InitialVariables(), Events.Catalogue)
  }

  /** A fresh game is valid whenever its variables are sound. */
  lemma StartValid(decisions: seq<Decision>, vars: map<string, Variable>, triggers: seq<Trigger>)
    requires Sound(vars)
    ensures Valid(Start(decisions, vars, triggers))
  {
  }

  lemma InitialVariablesSound()
    ensures Sound(Variables.InitialVariables())
  {
    Variables.InitialVariablesFacts();
    Variables.InitialRatingBounds();
  }

  /** The game starts in a valid state. */
  lemma InitialValid(decisions: seq<Decision>)
    ensures Valid(Initial(decisions))
  {
    InitialVariablesSound();
    StartValid(decisions, Variables.InitialVariables(), Events.Catalogue);
  }

  // ---------------------------------------------------------------------------
  // Decisions

  /** A decision: rejected ones change nothing; an accepted one is counted and
      recorded, its effects applied, its cost settled, the interest rate updated
      when it cost something, and the rating recomputed. */
  function Decide(s: State, decisionId: string, selected: seq<string>): State
    requires Sound(s.variables)
  {
    match Judge(s.decisionsThisYear, s.maxDecisionsPerYear, s.decisions, decisionId, selected)
    case Accepted(options) => Accept(s, options, decisionId, selected)
    case _ => s
  }

  /** An accepted decision with the options it resolved to. */
  function Accept(s: State, options: seq<DecisionOption>, decisionId: string, selected: seq<string>): State
    requires Sound(s.variables)
  {
    var cost := TotalCosts(options);
    var changes := DecisionChanges(options, s.currentDate, decisionId);
    EffectsKeepSound(s.variables, changes);
    var books := Settle(Ledger(s.budget, s.debt), cost);
    s.(decisionsThisYear := s.decisionsThisYear + 1,
       decisionHistory := s.decisionHistory + [DecisionResult(decisionId, selected, s.currentDate, cost)],
       budget := books.budget, debt := books.debt,
       interestRate := if cost > 0.0 then InterestRate(books.debt) else s.interestRate,
       variables := Rerate(ApplyChanges(s.variables, changes)))
  }

  /** A decision keeps the invariant; in particular the yearly limit is never
      exceeded. */
  lemma DecideValid(s: State, decisionId: string, selected: seq<string>)
    requires Valid(s)
    ensures Valid(Decide(s, decisionId, selected))
  {
    match Judge(s.decisionsThisYear, s.maxDecisionsPerYear, s.decisions, decisionId, selected)
    case Accepted(options) =>
      var changes := DecisionChanges(options, s.currentDate, decisionId);
      EffectsKeepSound(s.variables, changes);
      RerateKeeps(ApplyChanges(s.variables, changes));
    case _ =>
  }

  /** A rejected decision changes nothing. An accepted one is counted once and
      logged with the raw selection and the summed cost; a positive cost comes
      exactly out of budget plus debt and sets the interest rate from the new
      debt, any other cost leaves budget, debt and interest rate alone. */
  lemma DecideBalance(s: State, decisionId: string, selected: seq<string>)
    requires Valid(s)
    ensures var v := Judge(s.decisionsThisYear, s.maxDecisionsPerYear, s.decisions, decisionId, selected);
      var r := Decide(s, decisionId, selected);
      (!v.Accepted? ==> r == s) &&
      (v.Accepted? ==>
         r.decisionsThisYear == s.decisionsThisYear + 1 &&
         r.decisionHistory == s.decisionHistory + [DecisionResult(decisionId, selected, s.currentDate, TotalCosts(v.options))]) &&
      (v.Accepted? && TotalCosts(v.options) > 0.0 ==>
         r.budget + r.debt == s.budget + s.debt - TotalCosts(v.options) &&
         r.interestRate == InterestRate(r.debt)) &&
      (v.Accepted? && TotalCosts(v.options) <= 0.0 ==>
         r.budget == s.budget && r.debt == s.debt && r.interestRate == s.interestRate) &&
      r.debt <= s.debt
  {
  }

  /** Every history point an accepted decision adds to a variable other than the
      rating is dated the decision's day and attributed to the decision. */
  lemma DecideHistory(s: State, decisionId: string, selected: seq<string>, k: string)
    requires Valid(s) && k in s.variables && k != OverallRatingId
    requires Judge(s.decisionsThisYear, s.maxDecisionsPerYear, s.decisions, decisionId, selected).Accepted?
    ensures k in Decide(s, decisionId, selected).variables
    ensures var h, h' := s.variables[k].history, Decide(s, decisionId, selected).variables[k].history;
      |h| <= |h'| && h'[..|h|] == h &&
      forall j :: |h| <= j < |h'| ==>
        h'[j].date == s.currentDate && h'[j].source == FromDecision && h'[j].sourceId == Some(decisionId)
  {
    var options := Judge(s.decisionsThisYear, s.maxDecisionsPerYear, s.decisions, decisionId, selected).options;
    var changes := DecisionChanges(options, s.currentDate, decisionId);
    DecisionChangesUniform(options, s.currentDate, decisionId);
    ChangesHistory(s.variables, changes, k, s.currentDate, FromDecision, Some(decisionId));
    ChangesExtend(s.variables, changes);
    EffectsKeepSound(s.variables, changes);
    RerateKeeps(ApplyChanges(s.variables, changes));
  }

  // ---------------------------------------------------------------------------
  // A day passes

  /** `next` is the day after `date`. */
  predicate NextDay(date: GameDate, next: GameDate)
  {
    TimeManager.IsNormalized(next) && TimeManager.Ordinal(next) == TimeManager.Ordinal(date) + 1
  }

  /** The report of a year from the state's records. */
  function ReportOf(s: State, year: int, skipped: bool): YearlyReport
  {
    GenerateYearlyReport(s.decisionHistory, s.events, s.variables, s.coalitionStability, year, skipped)
  }

  /** The triggers that fire on the state's variables with the given draws. */
  function Fired(s: State, draws: seq<real>): seq<Trigger>
    requires Events.Aligned(s.triggers, s.triggerStates) && |draws| == |s.triggers|
  {
    Events.EvaluateOrdered(s.triggers, s.triggerStates, s.variables, draws);
    Events.Select(s.triggers, Events.Evaluate(s.triggers, s.triggerStates, s.variables, draws).fired)
  }

  /** One day passes: the date moves to `next`; when the year turns, the closed
      year's report is stored and the decision count and the budget are reset;
      the triggers are evaluated on the variables as they were, and the fired
      ones are recorded as events, their effects applied and their costs
      settled. */
  function Advance(s: State, next: GameDate, draws: seq<real>): State
    requires Events.Aligned(s.triggers, s.triggerStates) && |draws| == |s.triggers|
  {
    var newYear := next.year != s.currentDate.year;
    var turned :=
      if newYear then
        s.(decisionsThisYear := 0, budget := s.annualBudget,
           yearlyReports := s.yearlyReports[s.currentDate.year := ReportOf(s, s.currentDate.year, false)])
      else s;
    var fired := Fired(s, draws);
    var books := SettleEach(Ledger(turned.budget, s.debt), fired);
    turned.(currentDate := next,
            triggerStates := Events.Evaluate(s.triggers, s.triggerStates, s.variables, draws).states,
            events := s.events + EventRecords(fired, next),
            variables := ApplyChanges(s.variables, EventChanges(fired, next)),
            budget := books.budget, debt := books.debt)
  }

  /** A passing day keeps the invariant. */
  lemma AdvanceValid(s: State, next: GameDate, draws: seq<real>)
    requires Valid(s) && NextDay(s.currentDate, next) && |draws| == |s.triggers|
    ensures Valid(Advance(s, next, draws))
  {
    var r := Advance(s, next, draws);
    var fired := Fired(s, draws);
    TimeManager.NextDayYear(s.currentDate, next);
    Events.EvaluateAligned(s.triggers, s.triggerStates, s.variables, draws);
    EffectsKeepSound(s.variables, EventChanges(fired, next));
    SettleEachBalance(Ledger(if next.year != s.currentDate.year then s.annualBudget else s.budget, s.debt), fired);
    EventRecordsFacts(fired, next);
    assert AllMedium(r.events) by {
      forall i | 0 <= i < |r.events|
        ensures r.events[i].importance == Medium
      {
        if i >= |s.events| {
          assert r.events[i] == EventRecords(fired, next)[i - |s.events|];
        }
      }
    }
  }

  /** The year turns, and the closed year's report is stored, exactly on
      31 December; the next day is then 1 January of the following year. */
  lemma AdvanceTurnsYear(s: State, next: GameDate, draws: seq<real>)
    requires Valid(s) && NextDay(s.currentDate, next) && |draws| == |s.triggers|
    ensures var r := Advance(s, next, draws);
      (r.currentDate.year != s.currentDate.year <==> TimeManager.IsYearEnd(s.currentDate)) &&
      (TimeManager.IsYearEnd(s.currentDate) ==>
         r.currentDate.year == s.currentDate.year + 1 && TimeManager.IsNewYear(r.currentDate) &&
         r.decisionsThisYear == 0 &&
         r.yearlyReports == s.yearlyReports[s.currentDate.year := ReportOf(s, s.currentDate.year, false)]) &&
      (!TimeManager.IsYearEnd(s.currentDate) ==>
         r.decisionsThisYear == s.decisionsThisYear && r.yearlyReports == s.yearlyReports)
  {
    TimeManager.NextDayChangesYear(s.currentDate, next);
  }

  /** The fired events' costs come out of the budget (reset first if the year
      turned) and then the debt, exactly their positive sum; the day recomputes
      neither the interest rate nor the decision history. */
  lemma AdvanceBalance(s: State, next: GameDate, draws: seq<real>)
    requires Events.Aligned(s.triggers, s.triggerStates) && |draws| == |s.triggers|
    ensures var r, fired := Advance(s, next, draws), Fired(s, draws);
      var start := if next.year != s.currentDate.year then s.annualBudget else s.budget;
      r.budget + r.debt == start + s.debt - PositiveCosts(fired) &&
      r.interestRate == s.interestRate && r.decisionHistory == s.decisionHistory
  {
    var start := if next.year != s.currentDate.year then s.annualBudget else s.budget;
    SettleEachBalance(Ledger(start, s.debt), Fired(s, draws));
  }

  /** Each fired trigger is recorded as one event dated the new day, in order. */
  lemma AdvanceRecords(s: State, next: GameDate, draws: seq<real>)
    requires Events.Aligned(s.triggers, s.triggerStates) && |draws| == |s.triggers|
    ensures var r, fired := Advance(s, next, draws), Fired(s, draws);
      |r.events| == |s.events| + |fired| && r.events[..|s.events|] == s.events &&
      forall i :: |s.events| <= i < |r.events| ==>
        r.events[i].date == next && r.events[i].triggerId == fired[i - |s.events|].id
  {
    EventRecordsFacts(Fired(s, draws), next);
  }

  // ---------------------------------------------------------------------------
  // Time jumps

  /** The jump to 1 January of the next year: the current year's report is stored
      as skipped, and the decision count and the budget are reset. */
  function NextYear(s: State): State
  {
    s.(currentDate := TimeManager.JumpToNextYear(s.currentDate),
       decisionsThisYear := 0, budget := s.annualBudget,
       yearlyReports := s.yearlyReports[s.currentDate.year := ReportOf(s, s.currentDate.year, true)])
  }

  lemma NextYearValid(s: State)
    requires Valid(s)
    ensures Valid(NextYear(s))
    ensures NextYear(s).currentDate.year == s.currentDate.year + 1
  {
  }

  /** The reports with a skipped report added for every year from `from` to `to`
      that has none. */
  function FillReports(s: State, reports: map<int, YearlyReport>, from: int, to: int): map<int, YearlyReport>
    decreases to - from
  {
    if to < from then reports
    else
      var r := FillReports(s, reports, from, to - 1);
      if to in r then r else r[to := ReportOf(s, to, true)]
  }

  /** Filling adds exactly the missing years of the range, as skipped reports, and
      keeps every existing report. */
  lemma {:induction false} FillReportsFacts(s: State, reports: map<int, YearlyReport>, from: int, to: int)
    decreases to - from
    ensures var r := FillReports(s, reports, from, to);
      (forall y :: y in r <==> y in reports || from <= y <= to) &&
      (forall y :: y in reports ==> r[y] == reports[y]) &&
      (forall y :: y in r && y !in reports ==> r[y] == ReportOf(s, y, true))
  {
    if to >= from {
      FillReportsFacts(s, reports, from, to - 1);
    }
  }

  /** The jump to the end of the legislature: every year from the current one to
      the target year gets a skipped report unless it has one, and the decision
      count and the budget are reset. */
  function LegislatureEnd(s: State): State
  {
    var target := TimeManager.JumpToLegislatureEnd(s.currentDate);
    s.(currentDate := target, decisionsThisYear := 0, budget := s.annualBudget,
       yearlyReports := FillReports(s, s.yearlyReports, s.currentDate.year, target.year))
  }

  lemma LegislatureEndValid(s: State)
    requires Valid(s)
    ensures Valid(LegislatureEnd(s))
  {
    TimeManager.JumpToLegislatureEndTargets(s.currentDate);
  }
}
