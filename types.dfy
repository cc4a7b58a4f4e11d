/**
 * The records of the planning game's engine: dates, the elapsed-time timer,
 * bounded variables with their history, decisions and their options, event
 * triggers and the records the engine appends (decision results, game events,
 * yearly reports). Presentation-only fields (names shown in the UI, units,
 * colours, descriptions) are not carried.
 */
module Types {

  datatype Option<T> = None | Some(value: T)

  /** A calendar date. Nothing in the type forces it to be normalised. */
  datatype GameDate = GameDate(year: int, month: int, day: int)

  /** The elapsed-time timer; times are milliseconds, `startTime` is the wall-clock
      time of the running session, if any. */
  datatype Timer = Timer(isRunning: bool, startTime: Option<int>, elapsedTime: int, pausedTime: int)

  datatype Category = Politics | Economy | Society | Security | Environment | Overall

  /** Where a history point comes from. */
  datatype Source = FromDecision | FromEvent | Natural

  datatype HistoryPoint = HistoryPoint(date: GameDate, value: real, source: Source,
                                       sourceId: Option<string>, explanation: string)

  /** A bounded evaluation variable with its append-only history. */
  datatype Variable = Variable(id: string, value: real, minValue: real, maxValue: real,
                               category: Category, history: seq<HistoryPoint>)

  /** The immediate part of an option's effect on one variable (delayed effects are
      declared in the source but never applied). */
  datatype OptionEffect = OptionEffect(immediate: real, explanation: string)

  datatype DecisionOption = DecisionOption(id: string, costs: real,
                                           effects: seq<(string, OptionEffect)>,
                                           conflicts: seq<string>)

  datatype Decision = Decision(id: string, options: seq<DecisionOption>)

  datatype DecisionResult = DecisionResult(decisionId: string, selectedOptions: seq<string>,
                                           date: GameDate, totalCosts: real)

  datatype Operator = Gt | Lt | Eq | Ge | Le | Ne

  /** A static trigger condition; `duration == 0` stands for an absent duration. */
  datatype Condition = Condition(variableId: string, op: Operator, threshold: real, duration: nat)

  datatype Stakeholder = EU | China | USA | NATO | Business | Unions | Environmentalists | Media

  /** A catalogue trigger; `cost == 0` stands for an absent cost. */
  datatype Trigger = Trigger(id: string, name: string, conditions: seq<Condition>,
                             effects: seq<(string, real)>, cost: real, oneTime: bool,
                             probability: real, stakeholder: Option<Stakeholder>)

  /** The mutable part of a trigger: whether it fired and, per condition, the
      number of consecutive evaluations the condition has held. */
  datatype TriggerState = TriggerState(triggered: bool, durationMet: seq<nat>)

  datatype Importance = Low | Medium | High | Critical

  datatype EventCategory = Positive | Negative | Neutral

  datatype GameEvent = GameEvent(triggerId: string, title: string, date: GameDate,
                                 effects: seq<(string, real)>, cost: real,
                                 category: EventCategory, stakeholder: Option<Stakeholder>,
                                 importance: Importance)

  datatype Grade = APlus | A | BPlus | B | CPlus | C | DPlus | D | F

  datatype VariableChange = VariableChange(start: real, end: real, change: real)

  datatype YearlyReport = YearlyReport(year: int, decisionsCount: nat, majorEvents: seq<GameEvent>,
                                       variableChanges: map<string, VariableChange>,
                                       coalitionStability: real, publicApproval: real,
                                       economicPerformance: real, recommendations: seq<string>,
                                       grade: Grade, skipped: bool)

  /** The text a grade is shown as. */
  function GradeText(g: Grade): string
  {
    match g
    case APlus => "A+"
    case A => "A"
    case BPlus => "B+"
    case B => "B"
    case CPlus => "C+"
    case C => "C"
    case DPlus => "D+"
    case D => "D"
    case F => "F"
  }

  /** Lookup in a string-keyed record, as `obj[key]` with a missing key read as undefined. */
  function Lookup<V>(m: map<string, V>, k: string): (r: Option<V>)
    ensures r.Some? <==> k in m
    ensures r.Some? ==> r.value == m[k]
  {
    if k in m then Some(m[k]) else None
  }
}
