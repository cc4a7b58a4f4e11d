# Deutschland 2037 planning game: the simulation engine in Dafny

This project models the engine of a German politics planning game. The player
governs from 2025 to 2037:

- **Decisions.** Each year at most eight decisions may be taken. A decision
  moves the game's 31 bounded evaluation variables, costs money from a yearly
  budget and, once the budget is spent, adds to the debt. It also re-rates the
  government.
- **Time.** One second of play in the decision tab is one game day. On each day
  event triggers are evaluated against the variables. Triggers use day counters
  (hysteresis) and a random draw. Fired events change variables and cost money.
- **Reports.** When a year ends, a yearly report is filed, with a grade from the
  change of the overall rating. The player can skip to the next year or to the
  end of the legislature period; skipped years get reports marked as skipped.
- **Around the engine.** A calendar with the day index counted from 2025-01-01,
  an elapsed-time timer, the party data with coalition arithmetic, and the
  formatting rules of the user interface that carry logic.

The modules follow the program's files:

| module | file | models |
|---|---|---|
| `Types` | types.dfy | the records of `types/index.ts` the engine uses |
| `Text` | text.dfy | the JavaScript string operations the formatters rely on |
| `TimeManager` | time_manager.dfy | `utils/timeManager.ts` |
| `Formatters` | formatters.dfy | `utils/formatters.ts` |
| `Variables` | variables.dfy | `data/variables.ts` |
| `Events` | events.dfy | `data/events.ts` |
| `Parties` | parties.dfy | `data/parties.ts` |
| `GameLogic` | game_logic.dfy | the pure helpers of `hooks/useGameLogic.ts` (checks of a decision, effects, settlement, rating, report, recommendations) |
| `GameState` | game_state.dfy | the game state record and its transitions as functions, with the invariant `Valid` |
| `GameEngine` | engine.dfy | the hook as a class `Engine` whose methods change its state in place, and the loops of the hook's helpers |

How the model is organised:

- **Loops in the source are methods with loops here.** Each is proved equal to a
  specification function, and the properties are proved about that function:
  - `TimeManager.AddDays`, `AddMonths`, `DateToNumber` and `NumberToDate`
  - `Events.CheckEventTriggers`
  - `Parties.CalculateCoalitionCompatibility` and `GetPossibleCoalitions`
  - `GameEngine.ApplyEffects`, `ProcessEvents`, `RecalculateOverallRating` and
    `GenerateRecommendations`
  - the methods of `GameEngine.Engine`
- **Numbers are `real`.** Randomness is one draw in [0, 1) per trigger, passed
  in. The wall clock is an integer `now` in milliseconds, passed in.
- **Trigger state lives in the game state.** In the source the trigger counters
  live in a module-level array. Here they are a field of the game state
  (`triggerStates`) that the tick updates.

## Model

| member | source | states |
|---|---|---|
| Text.NatToString | deutschland-planspiel-2037/src/utils/formatters.ts:124 | the decimal text of a number is digits only, without a leading zero, one digit exactly below 10 and at most two below 100 |
| Text.IntToString | deutschland-planspiel-2037/src/utils/formatters.ts:115 | `String(i)` starts with '-' exactly for a negative number |
| Text.PadStart | deutschland-planspiel-2037/src/utils/formatters.ts:124 | `padStart` keeps a long enough text, otherwise pads to the width with the fill character in front and the text at the end |
| Text.Pad2Parses | deutschland-planspiel-2037/src/utils/formatters.ts:124 | a number padded to two digits reads back as the number; below 100 it has exactly two characters |
| Text.IntPad2Parses | deutschland-planspiel-2037/src/utils/formatters.ts:115 | a day or month below 100 padded to two characters reads back as itself |
| Text.IntToStringParses | deutschland-planspiel-2037/src/utils/formatters.ts:115 | a non-negative number written by `String` is digits only and reads back as itself |
| Text.Contains | deutschland-planspiel-2037/src/utils/formatters.ts:77 | `includes` holds exactly when the text occurs at some position |
| TimeManager.DaysInMonth | deutschland-planspiel-2037/src/utils/timeManager.ts:82-91 | 28 to 31 days; 29 exactly for February of a Gregorian leap year; 28 for February otherwise; 30 for a month outside 1..12 |
| TimeManager.MonthsBeforeYear | deutschland-planspiel-2037/src/utils/timeManager.ts:82-91 | the twelve month lengths add up to the year's length |
| TimeManager.DayNumberIsOrdinal | deutschland-planspiel-2037/src/utils/timeManager.ts:109-126 | from 2025 on the day index `dateToNumber` computes is the calendar's day count |
| TimeManager.DayNumberOfStart | deutschland-planspiel-2037/src/utils/timeManager.ts:109-126 | 2025-01-01 has day index 0 |
| TimeManager.DateToNumber | deutschland-planspiel-2037/src/utils/timeManager.ts:109-126 | the year and month loops compute the day index `DayNumber` for every input |
| TimeManager.NumberToDate | deutschland-planspiel-2037/src/utils/timeManager.ts:128-147 | the year and month loops compute `DateOfDayNumber` for every input |
| TimeManager.DayNumberOfDate | deutschland-planspiel-2037/src/utils/timeManager.ts:109-147 | every day index n ≥ 0 gives a normalised date from 2025 on, whose `dateToNumber` is n |
| TimeManager.DateOfDayNumberInverse | deutschland-planspiel-2037/src/utils/timeManager.ts:109-147 | `numberToDate(dateToNumber(d)) == d` for every normalised date from 2025 on |
| TimeManager.OrdinalStrictlyMonotone | deutschland-planspiel-2037/src/utils/timeManager.ts:93-97 | a date that compares earlier has a smaller day count |
| TimeManager.OrdinalInjective | deutschland-planspiel-2037/src/utils/timeManager.ts:109-126 | two normalised dates with the same day count are equal |
| TimeManager.CompareDatesSign | deutschland-planspiel-2037/src/utils/timeManager.ts:93-107 | the sign of `compareDates(a, b)` is the sign of `daysBetween(b, a)`, in all three cases |
| TimeManager.AddDays | deutschland-planspiel-2037/src/utils/timeManager.ts:29-53 | on a normalised date the result is normalised and n days later; from 2025 on the day index grows by n; adding 0 days is the identity |
| TimeManager.AddMonths | deutschland-planspiel-2037/src/utils/timeManager.ts:55-76 | the month lands in 1..12 with the carry in the year (year·12 + month grows by n); the day is cut down to the month's length; a positive day gives a normalised date |
| TimeManager.AddYears | deutschland-planspiel-2037/src/utils/timeManager.ts:78-80 | only the year moves, by n |
| TimeManager.AddYearsKeepsLeapDay | deutschland-planspiel-2037/src/utils/timeManager.ts:78-80 | 2028-02-29 plus one year is 2029-02-29, which is not a valid date |
| TimeManager.ClampDate | deutschland-planspiel-2037/src/utils/timeManager.ts:267-289 | the result is always valid (2025..2037, month 1..12, day within the month), and a valid date is returned unchanged; so clamping is idempotent |
| TimeManager.LegislaturePeriod | deutschland-planspiel-2037/src/utils/timeManager.ts:150-168 | period 1 before 2029, 2 for 2029–2032, 3 from 2033; it starts on 1 January of 2025 + 4·(period − 1) and ends on 31 December four years later |
| TimeManager.WithinLegislature | deutschland-planspiel-2037/src/utils/timeManager.ts:150-168 | every valid date lies between the start and the end of its period |
| TimeManager.JumpToNextYear | deutschland-planspiel-2037/src/utils/timeManager.ts:253-255 | the jump lands on 1 January of the following year |
| TimeManager.JumpToLegislatureEndTargets | deutschland-planspiel-2037/src/utils/timeManager.ts:257-260 | 2025–2028 jump to 2029-12-31, 2029–2032 to 2033-12-31, later years to 2037-12-31; a valid date never jumps back; 2037-12-31 is a fixpoint |
| TimeManager.NextElectionDate | deutschland-planspiel-2037/src/utils/timeManager.ts:170-174 | the next election is an election date; before 2037 it lies in a later year; it is the earliest election date with a later year |
| TimeManager.ElectionYears | deutschland-planspiel-2037/src/utils/timeManager.ts:176-178 | a year is an election year exactly when an election date falls in it |
| TimeManager.NextDayYear | deutschland-planspiel-2037/src/utils/timeManager.ts:29-53 | the day after a date lies in the same year or the next |
| TimeManager.NextDayChangesYear | deutschland-planspiel-2037/src/utils/timeManager.ts:291-297 | the next day lies in another year exactly when the date is 31 December (`isYearEnd`), and is then 1 January (`isNewYear`) of the next year |
| TimeManager.RoundedShare | deutschland-planspiel-2037/src/utils/timeManager.ts:180-197 | a rounded share of days passed lies in 0..100 and is 100 on the last day |
| TimeManager.YearProgress | deutschland-planspiel-2037/src/utils/timeManager.ts:180-188 | the progress through the year of a normalised date lies in 0..100 and is 100 on 31 December |
| TimeManager.LegislatureDays | deutschland-planspiel-2037/src/utils/timeManager.ts:190-197 | within a period, the days passed lie between 0 and the period's length |
| TimeManager.LegislatureProgress | deutschland-planspiel-2037/src/utils/timeManager.ts:190-197 | the progress through the period of a valid date lies in 0..100 and is 100 at the end of the game |
| TimeManager.CreateTimer | deutschland-planspiel-2037/src/utils/timeManager.ts:199-206 | a new timer is stopped, has no start time and no elapsed time |
| TimeManager.StartTimer | deutschland-planspiel-2037/src/utils/timeManager.ts:208-216 | a running timer is returned unchanged; a stopped one runs from `now` and keeps its elapsed time |
| TimeManager.PauseTimer | deutschland-planspiel-2037/src/utils/timeManager.ts:218-231 | a timer that is not running is returned unchanged; a running one stops, forgets its start time, records `now` as its pause time and adds exactly `now − startTime` to the elapsed time |
| TimeManager.PauseKeepsTotal | deutschland-planspiel-2037/src/utils/timeManager.ts:218-241 | the elapsed time after a pause equals `getTotalElapsedTime` at that moment; a start at t0 followed by a pause at t1 adds exactly t1 − t0 |
| TimeManager.DecisionWarning | deutschland-planspiel-2037/src/utils/timeManager.ts:319-331 | the limit message exactly when d ≥ m; the last-decision message exactly when d = m − 1; "Nur noch m − d" exactly when m − 3 ≤ d < m − 1; no warning exactly when d < m − 3 |
| TimeManager.WarningMatchesLimit | deutschland-planspiel-2037/src/utils/timeManager.ts:315-331 | `canMakeDecision` holds exactly when the warning is not the limit message |
| Formatters.FormatTime | deutschland-planspiel-2037/src/utils/formatters.ts:118-125 | `formatTime` gives the same text as `GameTimeManager.formatElapsedTime` |
| Formatters.SplitSeconds | deutschland-planspiel-2037/src/utils/formatters.ts:119-122 | hours, minutes and seconds add up to the whole seconds, with minutes below 60 |
| Formatters.FormatTimeReadsBack | deutschland-planspiel-2037/src/utils/formatters.ts:118-125 | below 100 hours the text is `HH:MM:SS`; minutes and seconds are below 60; reading the three fields back gives ⌊ms/1000⌋ |
| Formatters.FormatDateShortReadsBack | deutschland-planspiel-2037/src/utils/formatters.ts:105-116 | the short form is `DD.MM.YYYY`, and its three fields read back as day, month and year |
| Formatters.FormatDateLongNamesMonth | deutschland-planspiel-2037/src/utils/formatters.ts:105-116 | the long form contains the month's name, or "undefined" for a month outside 1..12 |
| Formatters.GameDateShortReadsBack | deutschland-planspiel-2037/src/utils/timeManager.ts:17-24 | the time manager's short form equals the formatter's `DD.MM.YYYY`, and its three fields read back as day, month and year |
| Formatters.GameDateLongNamesMonth | deutschland-planspiel-2037/src/utils/timeManager.ts:17-27 | the time manager's long form contains the month's name, or "Unknown" for a month outside 1..12 |
| Formatters.LongFormsAgreeOnValidMonths | deutschland-planspiel-2037/src/utils/timeManager.ts:17-27 | the time manager's and the formatter's long forms agree exactly when the month is one of the twelve |
| Formatters.GetChangeColor | deutschland-planspiel-2037/src/utils/formatters.ts:67-71 | green exactly for a rise, red exactly for a fall, gray exactly for no change |
| Formatters.ChangeColorMirror | deutschland-planspiel-2037/src/utils/formatters.ts:67-71 | a negated change swaps green and red |
| Formatters.Percentage | deutschland-planspiel-2037/src/utils/formatters.ts:50 | the position in the range is a finite number exactly when the range is not empty, and then p·(max − min) = (value − min)·100 |
| Formatters.GetValueColor | deutschland-planspiel-2037/src/utils/formatters.ts:49-65 | each colour exactly on its quarter of the range (≥ 75, ≥ 50, ≥ 25, below), or of the inverted range (≤ 25, ≤ 50, ≤ 75, above); NaN of an empty range compares false |
| Formatters.ValueColorMirror | deutschland-planspiel-2037/src/utils/formatters.ts:49-65 | an inverted variable is coloured as its mirror image in the range would be without inversion |
| Formatters.FormatCurrency | deutschland-planspiel-2037/src/utils/formatters.ts:73-85 | the prefix is "-" exactly for a negative amount and "+" otherwise; with "Mrd" in the unit the absolute amount is shown with the unit, otherwise the signed amount with " €" |
| Formatters.CurrencyInBillionsReadsBack | deutschland-planspiel-2037/src/utils/formatters.ts:73-79 | in billions the text reads back as the amount |
| Formatters.CurrencyDoubleMinus | deutschland-planspiel-2037/src/utils/formatters.ts:81-85 | as written, −1500 in euros prints both minus signs and reads as +1500 |
| Formatters.FormatCurrencyCorrected | deutschland-planspiel-2037/src/utils/formatters.ts:73-85 | the corrected formatter keeps the sign rule and always shows a non-negative number |
| Formatters.CorrectedCurrencyReadsBack | deutschland-planspiel-2037/src/utils/formatters.ts:73-85 | the corrected text reads back as the amount in every unit |
| Formatters.FormatPercentage | deutschland-planspiel-2037/src/utils/formatters.ts:87-90 | the prefix is "+" exactly when a sign is asked for and the value is positive, and empty otherwise; the value is shown with "%" |
| Formatters.PercentageReadsBack | deutschland-planspiel-2037/src/utils/formatters.ts:87-90 | a formatted percentage always reads back as its value |
| Formatters.GetGradeColor | deutschland-planspiel-2037/src/utils/formatters.ts:127-136 | gray exactly for a text that is not one of the nine grades |
| Formatters.GetGradeDescription | deutschland-planspiel-2037/src/utils/formatters.ts:138-151 | "Nicht bewertet" exactly for a text that is not one of the nine grades |
| Formatters.GradeColorOfLetter | deutschland-planspiel-2037/src/utils/formatters.ts:127-136 | a grade's colour is its letter's |
| Formatters.GradeColorsByLetter | deutschland-planspiel-2037/src/utils/formatters.ts:127-136 | two grades share a colour exactly when they share a letter (X+ and X) |
| Formatters.GradeDescriptionsDistinct | deutschland-planspiel-2037/src/utils/formatters.ts:138-151 | every grade has a description of its own |
| Variables.Initial | deutschland-planspiel-2037/src/data/variables.ts:4-24 | an entry starts with one natural history point on 2025-01-01 that carries its value |
| Variables.KeysFacts | deutschland-planspiel-2037/src/data/variables.ts:7-573 | the record has 31 distinct keys, and each entry's id is its key |
| Variables.CatalogueWellFormed | deutschland-planspiel-2037/src/data/variables.ts:9-572 | every entry lies within its bounds and has a single natural history point on 2025-01-01 that carries its value |
| Variables.InitialVariablesFacts | deutschland-planspiel-2037/src/data/variables.ts:7-573 | the initial variables hold exactly the 31 keys, each entry under its own id and as declared |
| Variables.InitialRatingBounds | deutschland-planspiel-2037/src/data/variables.ts:556-572 | the bounds of `overall_rating` are [5, 98], the clamp range of the rating; popularity is present |
| Variables.GetVariableById | deutschland-planspiel-2037/src/data/variables.ts:576-578 | a variable is found exactly for a key; it carries that id, lies within its bounds and is an entry of the record |
| Variables.VariablesByCategory | deutschland-planspiel-2037/src/data/variables.ts:580-582 | exactly the entries of the category |
| Variables.CategoriesPartition | deutschland-planspiel-2037/src/data/variables.ts:580-582 | every entry is listed under its own category and under no other |
| Variables.AllVariableIds | deutschland-planspiel-2037/src/data/variables.ts:584-586 | 31 distinct ids, each finding the entry in its position |
| Variables.ValidateVariableValue | deutschland-planspiel-2037/src/data/variables.ts:588-592 | true exactly for a known id and a value within its inclusive bounds |
| Variables.InitialValuesValidate | deutschland-planspiel-2037/src/data/variables.ts:588-592 | every initial value validates, and no value outside an entry's bounds does |
| Events.OperatorComplements | deutschland-planspiel-2037/src/data/events.ts:519-538 | `=` and `!=` (with the 0.1 tolerance), `>` and `<=`, and `<` and `>=` are exact complements; `=` is symmetric |
| Events.StepCondition | deutschland-planspiel-2037/src/data/events.ts:509-548 | a missing variable blocks and leaves the counter; a false comparison blocks and resets it to 0; a true one adds exactly 1 and is satisfied when the duration is absent or reached |
| Events.StepConditions | deutschland-planspiel-2037/src/data/events.ts:507-549 | every condition's counter is stepped, whatever the others gave; all are met exactly when each is satisfied |
| Events.StepTrigger | deutschland-planspiel-2037/src/data/events.ts:504-555 | a retired one-time trigger is skipped untouched; otherwise the counters are stepped, it fires exactly when all conditions are met and the draw is below its probability, and firing marks it triggered |
| Events.CheckCondition | deutschland-planspiel-2037/src/data/events.ts:509-548 | the method computes `StepCondition` |
| Events.CheckConditions | deutschland-planspiel-2037/src/data/events.ts:507-549 | the loop over the conditions computes `StepConditions` |
| Events.CheckTrigger | deutschland-planspiel-2037/src/data/events.ts:504-555 | the method computes `StepTrigger` |
| Events.CheckEventTriggers | deutschland-planspiel-2037/src/data/events.ts:501-558 | the loop over the triggers returns the new trigger states and the fired triggers of the specification `Evaluate` |
| Events.Evaluate | deutschland-planspiel-2037/src/data/events.ts:501-558 | an evaluation gives one new state per trigger |
| Events.EvaluateStates | deutschland-planspiel-2037/src/data/events.ts:504-555 | each trigger's new state is its own step's state |
| Events.EvaluateAligned | deutschland-planspiel-2037/src/data/events.ts:504-555 | evaluation keeps one counter per condition of every trigger |
| Events.EvaluateOrdered | deutschland-planspiel-2037/src/data/events.ts:551-557 | the fired triggers are in catalogue order with no duplicates |
| Events.EvaluateFired | deutschland-planspiel-2037/src/data/events.ts:551-557 | a trigger is returned exactly when its own step fired |
| Events.FiringRule | deutschland-planspiel-2037/src/data/events.ts:504-557 | a trigger is returned exactly when it is not retired, every condition is satisfied and the draw is below its probability; a returned trigger is marked triggered |
| Events.RetiredUntouched | deutschland-planspiel-2037/src/data/events.ts:505 | a triggered one-time trigger is not returned and its state is not touched |
| Events.EveryCounterUpdated | deutschland-planspiel-2037/src/data/events.ts:507-549 | no short-circuit: every condition's counter is updated even after an earlier condition failed |
| Events.CertainTriggerFires | deutschland-planspiel-2037/src/data/events.ts:551 | a ready trigger with probability 1 fires on every draw in [0, 1) |
| Events.SatisfiedStaysSatisfied | deutschland-planspiel-2037/src/data/events.ts:540-548 | a satisfied condition is satisfied again at the next evaluation on the same variables |
| Events.RepeatableReadyAgain | deutschland-planspiel-2037/src/data/events.ts:544-554 | firing does not reset the counters: a repeatable trigger that fired is ready again at the next evaluation on the same variables |
| Events.Hysteresis | deutschland-planspiel-2037/src/data/events.ts:540-548 | from a reset counter, a condition that keeps holding counts exactly one per evaluation and is first satisfied on the evaluation that reaches its duration |
| Events.InitialStates | deutschland-planspiel-2037/src/data/events.ts:4-498 | every trigger starts untriggered, with every counter at 0 |
| Events.FindTrigger | deutschland-planspiel-2037/src/data/events.ts:565 | `find` returns the first trigger with the id, or nothing when no trigger has it |
| Events.GetEventById | deutschland-planspiel-2037/src/data/events.ts:574-576 | a trigger is found exactly when the catalogue has the id, and it carries that id |
| Events.GetEventsByStakeholder | deutschland-planspiel-2037/src/data/events.ts:560-562 | exactly the catalogue triggers tagged with the stakeholder |
| Events.ResetTrigger | deutschland-planspiel-2037/src/data/events.ts:564-572 | a repeatable trigger becomes untriggered with every counter at 0, nothing else changes; a one-time trigger or an unknown id changes nothing |
| Events.ResetRestoresInitial | deutschland-planspiel-2037/src/data/events.ts:564-572 | a reset repeatable trigger is in its state at the start of the game |
| Events.CatalogueWellFormed | deutschland-planspiel-2037/src/data/events.ts:4-498 | 25 triggers, each with its probability in (0, 1], a cost that is not negative and every condition's duration positive |
| Events.CatalogueIdsDistinct | deutschland-planspiel-2037/src/data/events.ts:4-498 | the trigger ids are unique |
| Events.CatalogueAsDeclared | deutschland-planspiel-2037/src/data/events.ts:4-498 | the catalogue's ids and effects, in order, are exactly those of the trigger table, with each effect keyed by its variable id |
| Events.ClimateDisasterEffects | deutschland-planspiel-2037/src/data/events.ts:262-279 | the climate disaster costs 25 and changes economic growth by −1.5, popularity by −10 and the social wing's coalition stability by +8 |
| Events.CatalogueVariablesKnown | deutschland-planspiel-2037/src/data/events.ts:4-498 | every variable a trigger reads or changes is a key of the variable record |
| Parties.PartyOf | deutschland-planspiel-2037/src/data/parties.ts:4-461 | each party's record carries its own id |
| Parties.KeysFacts | deutschland-planspiel-2037/src/data/parties.ts:4-461 | eight parties, declared once each, under distinct keys |
| Parties.RelationshipsInRange | deutschland-planspiel-2037/src/data/parties.ts:4-461 | every recorded relationship lies in [0, 100] |
| Parties.GetPartyById | deutschland-planspiel-2037/src/data/parties.ts:465-467 | a found party is the record's entry for its id |
| Parties.FoundIffKey | deutschland-planspiel-2037/src/data/parties.ts:465-467 | a party is found exactly for one of the eight ids, and it is the party with that id |
| Parties.PartyAt | deutschland-planspiel-2037/src/data/parties.ts:465-467 | every party is found under its id |
| Parties.StrengthConcat | deutschland-planspiel-2037/src/data/parties.ts:477-482 | the strength of two lists joined is the sum of their strengths, so repeated ids count repeatedly |
| Parties.StrengthStep | deutschland-planspiel-2037/src/data/parties.ts:477-482 | each further id adds its party's popularity, or 0 for an unknown id |
| Parties.StrengthSingle | deutschland-planspiel-2037/src/data/parties.ts:477-482 | one party alone has its popularity as strength |
| Parties.Shares | deutschland-planspiel-2037/src/data/parties.ts:4-487 | the popularities add up to 100; progressive, sozialdemokraten and liberale have 51, so `canFormCoalition` holds for the starting coalition |
| Parties.GetPartiesByIdeology | deutschland-planspiel-2037/src/data/parties.ts:473-475 | exactly the parties of the ideology |
| Parties.Relationship | deutschland-planspiel-2037/src/data/parties.ts:501 | the first party's view of the second, and 50 when it is missing or 0 |
| Parties.AddRow | deutschland-planspiel-2037/src/data/parties.ts:496-505 | the inner loop adds one row of pairs to the running total and count |
| Parties.CalculateCoalitionCompatibility | deutschland-planspiel-2037/src/data/parties.ts:489-509 | the nested loops compute `Compatibility`: the mean over the pairs i < j of known parties, 0 without such a pair |
| Parties.CompatibilityBounds | deutschland-planspiel-2037/src/data/parties.ts:489-509 | the compatibility lies in [0, 100] |
| Parties.CompatibilityWithoutPairs | deutschland-planspiel-2037/src/data/parties.ts:490-508 | with at most one known party among the ids there is no pair, and the compatibility is 0 |
| Parties.GoverningCompatibility | deutschland-planspiel-2037/src/data/parties.ts:489-509 | the starting coalition's compatibility is (65 + 70 + 50) / 3 |
| Parties.ZeroRelationshipReadsAsFifty | deutschland-planspiel-2037/src/data/parties.ts:501 | a recorded relationship of 0 counts as 50 |
| Parties.EligibleParties | deutschland-planspiel-2037/src/data/parties.ts:512 | the distinct party ids other than 'sonstige' |
| Parties.EnumeratePairs | deutschland-planspiel-2037/src/data/parties.ts:515-523 | the pair loops list the strong enough pairs i < j in loop order |
| Parties.EnumerateTriples | deutschland-planspiel-2037/src/data/parties.ts:525-535 | the triple loops list the strong enough triples i < j < k in loop order |
| Parties.EnumerateTriplesFrom | deutschland-planspiel-2037/src/data/parties.ts:527-534 | the middle and inner loops for a first party append its strong enough triples in loop order |
| Parties.CandidatesListedOnce | deutschland-planspiel-2037/src/data/parties.ts:515-535 | the pairs and triples listed are exactly the strong enough combinations, each once |
| Parties.InsertByStrength | deutschland-planspiel-2037/src/data/parties.ts:537-539 | one insertion step of the sort adds exactly the coalition |
| Parties.InsertKeepsOrder | deutschland-planspiel-2037/src/data/parties.ts:537-539 | inserting into a list ordered strongest first keeps it so ordered |
| Parties.SortByStrength | deutschland-planspiel-2037/src/data/parties.ts:537-539 | sorting is a permutation and orders by strength, non-increasing |
| Parties.InsertIsStable | deutschland-planspiel-2037/src/data/parties.ts:537-539 | one insertion keeps the coalitions of each strength in their order and places the new one after those of equal strength |
| Parties.SortIsStable | deutschland-planspiel-2037/src/data/parties.ts:537-539 | the sort is stable: for every strength, the coalitions of that strength come out in the order they went in |
| Parties.GetPossibleCoalitions | deutschland-planspiel-2037/src/data/parties.ts:511-539 | each 2- or 3-combination of distinct parties other than 'sonstige' with strength ≥ the minimum appears exactly once, nothing else appears, in non-increasing strength; coalitions of equal strength keep their enumeration order, pairs before triples, each in loop order |
| GameLogic.Clamp | deutschland-planspiel-2037/src/hooks/useGameLogic.ts:214 | the clamped value lies in the bounds, equals the value inside them and the nearer bound outside |
| GameLogic.ChangeEffect | deutschland-planspiel-2037/src/hooks/useGameLogic.ts:207-230 | an effect on a known variable sets it to clamp(old + delta) within its bounds, appends exactly one history point with the new value and the effect's date, source, source id and explanation, and leaves every other variable alone |
| GameLogic.ChangeExtends | deutschland-planspiel-2037/src/hooks/useGameLogic.ts:207-230 | one effect only appends to histories, keeps ranges of positive width and keeps every value within bounds |
| GameLogic.ChangesExtend | deutschland-planspiel-2037/src/hooks/useGameLogic.ts:203-231 | a sequence of effects keeps every variable with its id, bounds and category, only appends to histories, keeps ranges of positive width and keeps values within bounds |
| GameLogic.ChangesConcat | deutschland-planspiel-2037/src/hooks/useGameLogic.ts:203-231 | applying two effect lists one after the other is applying their concatenation |
| GameLogic.ChangesHistory | deutschland-planspiel-2037/src/hooks/useGameLogic.ts:203-231 | a known variable gains exactly one history point per effect on it, each with the effects' date, source and source id |
| GameLogic.OptionChangesUniform | deutschland-planspiel-2037/src/hooks/useGameLogic.ts:207-229 | one change per option effect, all dated the decision's day with source 'decision' and the decision id |
| GameLogic.DecisionChangesUniform | deutschland-planspiel-2037/src/hooks/useGameLogic.ts:203-231 | the changes of all options carry the decision's date, source and id |
| GameLogic.EventRecordsFacts | deutschland-planspiel-2037/src/hooks/useGameLogic.ts:496-510 | exactly one event per fired trigger, in order, each of medium importance, dated the day and costing the trigger's cost |
| GameLogic.Settle | deutschland-planspiel-2037/src/hooks/useGameLogic.ts:237-246 | a cost ≤ 0 changes nothing; a positive cost comes exactly out of budget plus debt; a non-negative budget stays non-negative and never grows; the debt never grows and shrinks exactly when the cost exceeds the budget |
| GameLogic.SettleEachBalance | deutschland-planspiel-2037/src/hooks/useGameLogic.ts:536-545 | settling the fired events takes exactly their positive costs out of budget plus debt; the budget stays non-negative and the debt never grows |
| GameLogic.InterestRate | deutschland-planspiel-2037/src/hooks/useGameLogic.ts:248 | `3.0 + |debt|/100·0.3` is at least 3, and exactly 3 without debt |
| GameLogic.InterestGrowsWithDebt | deutschland-planspiel-2037/src/hooks/useGameLogic.ts:248 | more debt never lowers the interest rate |
| GameLogic.FindDecision | deutschland-planspiel-2037/src/hooks/useGameLogic.ts:160-161 | a decision is found exactly when one has the id, and it has that id |
| GameLogic.FindOption | deutschland-planspiel-2037/src/hooks/useGameLogic.ts:164 | an option is found exactly when one has the id, and it has that id |
| GameLogic.ResolveOptions | deutschland-planspiel-2037/src/hooks/useGameLogic.ts:163-167 | at most one option per selected id, each a selected option of the decision; none exactly when no selected id resolves |
| GameLogic.TotalCostsConcat | deutschland-planspiel-2037/src/hooks/useGameLogic.ts:185 | the cost sum is additive over concatenation |
| GameLogic.SelectionCharged | deutschland-planspiel-2037/src/hooks/useGameLogic.ts:163-185 | each further selected id adds its option's cost, or nothing when it does not resolve |
| GameLogic.DuplicateChargedTwice | deutschland-planspiel-2037/src/hooks/useGameLogic.ts:163-185 | a selected id given twice is charged twice |
| GameLogic.Judge | deutschland-planspiel-2037/src/hooks/useGameLogic.ts:150-182 | the limit verdict exactly when no decision may be made; accepted exactly when under the limit, the decision is known, an option resolves and no resolved option conflicts with any selected id (resolved or not) |
| GameLogic.WeightsAsWrittenDistinct | deutschland-planspiel-2037/src/hooks/useGameLogic.ts:453-465 | the table as written has 11 distinct ids led by popularity, with debt weighing −0.08 |
| GameLogic.WeightTables | deutschland-planspiel-2037/src/hooks/useGameLogic.ts:453-465 | both weight tables have 11 distinct ids led by popularity; the debt weight is −0.08 as written and +0.08 corrected |
| GameLogic.WeightAtLeast | deutschland-planspiel-2037/src/hooks/useGameLogic.ts:470-477 | with popularity present, the total weight is at least popularity's weight, so positive |
| GameLogic.Rating | deutschland-planspiel-2037/src/hooks/useGameLogic.ts:467-479 | the rating from the weighted sums lies in [5, 98] |
| GameLogic.RerateKeeps | deutschland-planspiel-2037/src/hooks/useGameLogic.ts:479-490 | re-rating changes only the value of `overall_rating`: no history point, no other variable; bounds, positive widths and the rating's [5, 98] range are kept |
| GameLogic.TallyShift | deutschland-planspiel-2037/src/hooks/useGameLogic.ts:470-477 | moving one weighted variable changes the weighted sum by exactly its change of contribution, and not the total weight |
| GameLogic.ScoreFollowsWeight | deutschland-planspiel-2037/src/hooks/useGameLogic.ts:470-477 | raising a variable moves the weighted sum in the direction of its weight's sign, strictly when it really rises |
| GameLogic.RatingFollowsScore | deutschland-planspiel-2037/src/hooks/useGameLogic.ts:479 | at equal total weight, a higher weighted sum never gives a lower rating |
| GameLogic.RatingFollowsWeight | deutschland-planspiel-2037/src/hooks/useGameLogic.ts:467-479 | raising a positively weighted variable never lowers the rating; raising a negatively weighted one never raises it |
| GameLogic.MoreDebtRaisesScoreAsWritten | deutschland-planspiel-2037/src/hooks/useGameLogic.ts:459 | with the weight as written, more debt strictly raises the weighted sum and never lowers the rating |
| GameLogic.MoreDebtLowersScore | deutschland-planspiel-2037/src/hooks/useGameLogic.ts:459 | with the corrected weight, more debt strictly lowers the weighted sum and never raises the rating |
| GameLogic.JanuaryValue | deutschland-planspiel-2037/src/hooks/useGameLogic.ts:387 | nothing is found exactly when no history point lies in January of the year |
| GameLogic.LastValueOfYear | deutschland-planspiel-2037/src/hooks/useGameLogic.ts:388 | nothing is found exactly when no history point lies in the year |
| GameLogic.QuietYear | deutschland-planspiel-2037/src/hooks/useGameLogic.ts:386-395 | without history points in the year, start and end fall back to the current value and the change is 0 |
| GameLogic.GradeFor | deutschland-planspiel-2037/src/hooks/useGameLogic.ts:398-407 | each grade exactly on its interval of the change (> 15 A+, > 10 A, > 5 B+, > 0 B, > −5 C+, > −10 D+, > −15 D, else F); 'C' is never given |
| GameLogic.GradeMonotone | deutschland-planspiel-2037/src/hooks/useGameLogic.ts:398-407 | a larger change never gives a worse grade |
| GameLogic.RecommendationsExact | deutschland-planspiel-2037/src/hooks/useGameLogic.ts:423-444 | a piece of advice is listed exactly when its check holds on the variables (not the ledger debt), in the order of the checks, each at most once |
| GameLogic.TextsPick | deutschland-planspiel-2037/src/hooks/useGameLogic.ts:427-441 | one check pushes its text exactly when it holds |
| GameLogic.NoMajorEvents | deutschland-planspiel-2037/src/hooks/useGameLogic.ts:412 | with every event of medium importance, no year has major events |
| GameLogic.QuietYearGradesCPlus | deutschland-planspiel-2037/src/hooks/useGameLogic.ts:380-421 | a year without rating history has rating change 0 and grade C+ |
| GameLogic.DecisionsInAppend | deutschland-planspiel-2037/src/hooks/useGameLogic.ts:381 | a further decision counts in its own year only |
| GameState.EffectsKeepSound | deutschland-planspiel-2037/src/hooks/useGameLogic.ts:203-231 | effects keep every variable within bounds and the rating's inputs present |
| GameState.StartValid | deutschland-planspiel-2037/src/hooks/useGameLogic.ts:12-69 | the initial record satisfies the invariant for any sound set of variables |
| GameState.InitialVariablesSound | deutschland-planspiel-2037/src/data/variables.ts:7-573 | the initial variables are within bounds, with popularity and the rating present |
| GameState.InitialValid | deutschland-planspiel-2037/src/hooks/useGameLogic.ts:12-69 | the initial game state satisfies the invariant |
| GameState.DecideValid | deutschland-planspiel-2037/src/hooks/useGameLogic.ts:149-268 | a decision keeps the invariant; the yearly limit is never exceeded, the budget never turns negative, the debt never turns positive |
| GameState.DecideBalance | deutschland-planspiel-2037/src/hooks/useGameLogic.ts:150-249 | a rejected decision changes nothing; an accepted one is counted once and logged with the raw selection and the summed cost; a positive cost comes exactly out of budget plus debt and sets the interest rate from the new debt; any other cost leaves budget, debt and interest rate alone; debt is never paid back |
| GameState.DecideHistory | deutschland-planspiel-2037/src/hooks/useGameLogic.ts:203-231 | an accepted decision keeps the history of each variable other than the rating as a prefix, and dates every new point the decision's day, attributed to the decision |
| GameState.AdvanceValid | deutschland-planspiel-2037/src/hooks/useGameLogic.ts:86-119 | a day passing keeps the invariant |
| GameState.AdvanceTurnsYear | deutschland-planspiel-2037/src/hooks/useGameLogic.ts:92-110 | the year turns exactly after 31 December; it then resets the decision count and files the closed year's report, not skipped; otherwise count and reports stay |
| GameState.AdvanceBalance | deutschland-planspiel-2037/src/hooks/useGameLogic.ts:100-116 | the fired events' positive costs come out of budget (reset first when the year turned) plus debt; the day changes neither the interest rate nor the decision log |
| GameState.AdvanceRecords | deutschland-planspiel-2037/src/hooks/useGameLogic.ts:493-510 | one event per fired trigger is appended after the old events, dated the new day |
| GameState.NextYearValid | deutschland-planspiel-2037/src/hooks/useGameLogic.ts:271-287 | the jump to the next year keeps the invariant and moves one year on |
| GameState.FillReportsFacts | deutschland-planspiel-2037/src/hooks/useGameLogic.ts:294-299 | filling adds a skipped report exactly for the missing years of the range and keeps every existing report |
| GameState.LegislatureEndValid | deutschland-planspiel-2037/src/hooks/useGameLogic.ts:289-309 | the jump to the end of the legislature keeps the invariant |
| GameEngine.ApplyEffects | deutschland-planspiel-2037/src/hooks/useGameLogic.ts:203-231 | the loop applies the effects as `ApplyChanges` |
| GameEngine.ProcessEvents | deutschland-planspiel-2037/src/hooks/useGameLogic.ts:493-549 | the loop over the fired triggers records their events, applies their effects and settles their costs, in order |
| GameEngine.RecalculateOverallRating | deutschland-planspiel-2037/src/hooks/useGameLogic.ts:451-491 | the accumulating loop computes `Rerate`: the clamped weighted mean, with the debt weight corrected to +0.08, written into the rating's value |
| GameEngine.PushAdvice | deutschland-planspiel-2037/src/hooks/useGameLogic.ts:427-441 | one check pushes its text exactly when it holds |
| GameEngine.GenerateRecommendations | deutschland-planspiel-2037/src/hooks/useGameLogic.ts:423-444 | the pushes give the texts of `Recommendations` |
| GameEngine.Engine.constructor | deutschland-planspiel-2037/src/hooks/useGameLogic.ts:12-69 | the engine starts in the initial state, which is valid |
| GameEngine.Engine.MakeDecision | deutschland-planspiel-2037/src/hooks/useGameLogic.ts:149-268 | the verdict is `Judge`'s; the state moves as `GameState.Decide` (whose re-rating uses the corrected debt weight) and stays valid |
| GameEngine.Engine.Accept | deutschland-planspiel-2037/src/hooks/useGameLogic.ts:185-258 | the accepted path on a copy: count, record, effects, settlement, interest and rating (corrected debt weight) as `GameState.Accept` |
| GameEngine.Engine.ProcessTriggeredEvents | deutschland-planspiel-2037/src/hooks/useGameLogic.ts:493-549 | events appended, effects applied and costs settled; interest rate and everything else unchanged |
| GameEngine.Engine.Tick | deutschland-planspiel-2037/src/hooks/useGameLogic.ts:86-119 | outside the decision tab or with the timer stopped nothing changes; otherwise the date moves one day on, the fired triggers are `Fired`'s and the state moves as `GameState.Advance`; valid |
| GameEngine.Engine.JumpToNextYear | deutschland-planspiel-2037/src/hooks/useGameLogic.ts:271-287 | the state moves as `GameState.NextYear` and stays valid |
| GameEngine.Engine.JumpToLegislatureEnd | deutschland-planspiel-2037/src/hooks/useGameLogic.ts:289-309 | the year loop fills the reports as `GameState.LegislatureEnd` and the state stays valid |
| GameEngine.Engine.StartTimer | deutschland-planspiel-2037/src/hooks/useGameLogic.ts:76-82 | the timer starts only inside the decision tab; nothing else changes |
| GameEngine.Engine.PauseTimer | deutschland-planspiel-2037/src/hooks/useGameLogic.ts:123-133 | the timer is paused at `now`; nothing else changes |
| GameEngine.Engine.SetInDecisionTab | deutschland-planspiel-2037/src/hooks/useGameLogic.ts:135-146 | the flag is set; entering starts the timer only if the tab was already open (the start sees the old flag), leaving pauses it |

## Left out

- I/O, React state hooks, `setInterval`/`clearInterval` and the re-rendering of the hook are not modelled. Each action is one method on one state value, and the tick is a method the caller invokes once per second.
- Notifications (`addNotification`, `markNotificationAsRead`) are not modelled; `makeDecision` returns a verdict instead of true/false plus a notification.
- The `Date.now()` part of event ids is not modelled: an event is identified by its trigger id, and an event's history points carry the trigger id as source id.
- `Math.random()` and `new Date()` are parameters: one draw in [0, 1) per trigger, and `now` in milliseconds.
- `toFixed`, `toLocaleString` and IEEE-754 rounding are not modelled. Numbers are `real`; an amount is modelled as its sign prefix, the number shown and its suffix. `formatValue` and `formatNumber` consist only of such rendering and are not modelled.
- `Math.round` in the progress percentages is floor(x + 1/2) on the non-negative values it is applied to.
- The decision catalogue (`../data/decisions`) is not part of this model; it is a parameter of the engine's constructor. Availability windows, required states, dependencies and delayed effects are not checked by `makeDecision` and are not modelled.
- `updateCoalitionSatisfaction` is an identity function and is left out; the coalition's stability is a constant field of the state.
- In the source, `checkEventTriggers` and `resetEventTrigger` read and write the module-level trigger array. Here the counters are a field of the game state. `Events.ResetTrigger` returns the new trigger states instead of changing them in place.
- GameEngine.Engine.Tick: the year's report is written into a copy of the report map. The source writes into the map object it shares with the previous state; that aliasing is not modelled.
- GameLogic.Rating, GameEngine.RecalculateOverallRating: these require popularity to be present and every variable to have max ≠ min. Without any weighted variable the source divides 0 by 0 and stores NaN; that path is not modelled.
- GameEngine.RecalculateOverallRating: uses the corrected debt weight +0.08 (see Findings), not the −0.08 of useGameLogic.ts:459. The as-written weight table is `GameLogic.WeightsAsWritten`.
- GameEngine.Engine.MakeDecision: its re-rating, like that of `GameState.Decide`, uses the corrected debt weight, so the rating after an accepted decision is not the one the source's weight table gives.
- GameEngine.Engine.Accept: as `GameState.Accept`, the re-rating uses the corrected debt weight rather than the source's −0.08.
- TimeManager.AddDays: requires a normalised date. The source does not guard this, but the game only ever calls it on normalised dates.
- `getQuarter`, `isQuarterEnd`, `getSeason`, `createGameDate`, `isSameDate` and `TIME_CONSTANTS` are not modelled. The legislature periods follow `getLegislaturePeriod`; the unused `TIME_CONSTANTS.LEGISLATURE_PERIODS` disagrees with it.
- `getAllParties` and the presentation fields of parties and variables (names, colours, descriptions, units, formats) are not carried.
- The `.tsx` components, `App.tsx` and the styling configuration are rendering and are not modelled.

## Findings

| source | as written | input that shows it | evidently intended | confidence | as-written member | corrected member |
|---|---|---|---|---|---|---|
| deutschland-planspiel-2037/src/hooks/useGameLogic.ts:459 | the debt variable weighs −0.08; the debt variable is at most 0, so more debt means a lower value and a lower normalised position, and the negative weight turns that into a higher score | any variables in which `debt` moves down (more debt) with everything else fixed | more debt lowers the overall rating, as the comment says; with a non-positive debt variable that takes the weight +0.08 | not executed | GameLogic.MoreDebtRaisesScoreAsWritten | GameLogic.MoreDebtLowersScore |
| deutschland-planspiel-2037/src/utils/formatters.ts:81-85 | for units without "Mrd", `formatCurrency` prints the sign prefix and then the signed amount | `formatCurrency(-1500, '€')` gives "--1.500 €" | one minus sign, as in the billions branch, which prints the absolute amount | not executed | Formatters.CurrencyDoubleMinus | Formatters.CorrectedCurrencyReadsBack |
