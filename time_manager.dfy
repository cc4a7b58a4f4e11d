/**
 * The game's calendar and clock: Gregorian month lengths, day/month/year
 * arithmetic with normalisation, the day index counted from 2025-01-01, date
 * validity and clamping to the 2025–2037 era, the three legislature periods and
 * elections, progress percentages, the elapsed-time timer and the yearly
 * decision limit.
 *
 * `AddDays`, `AddMonths`, `DateToNumber` and `NumberToDate` step through the
 * calendar in loops and are methods; each is proved against a specification
 * function (`Ordinal`, `DayNumber`, `DateOfDayNumber`) whose properties are
 * proved as lemmas.
 */
module TimeManager {
  import opened Types
  import Text

  const MonthNames: seq<string> := ["Januar", "Februar", "März", "April", "Mai", "Juni",
                                    "Juli", "August", "September", "Oktober", "November", "Dezember"]

  const DaysPerMonth: seq<int> := [31, 28, 31, 30, 31, 30, 31, 31, 30, 31, 30, 31]

  const GameStart := GameDate(2025, 1, 1)
  const GameEnd := GameDate(2037, 12, 31)
  const ElectionDates: seq<GameDate> := [GameDate(2029, 9, 26), GameDate(2033, 9, 26), GameDate(2037, 9, 26)]
  const MaxDecisionsPerYear := 8

  // ---------------------------------------------------------------------------
  // Month lengths

  /** Gregorian rule: divisible by 4 and not by 100, or divisible by 400. */
  predicate IsLeapYear(year: int)
  {
    (year % 4 == 0 && year % 100 != 0) || year % 400 == 0
  }

  function DaysInYear(year: int): int
  {
    if IsLeapYear(year) then 366 else 365
  }

  /** February has 29 days in a leap year; otherwise the fixed table, and 30 for a
      month outside 1..12 (the table lookup yields undefined). */
  function DaysInMonth(year: int, month: int): (r: int)
    ensures 28 <= r <= 31
    ensures r == 29 <==> month == 2 && IsLeapYear(year)
    ensures (month < 1 || 12 < month) ==> r == 30
    ensures month == 2 && !IsLeapYear(year) ==> r == 28
  {
    if month == 2 && IsLeapYear(year) then 29
    else if 1 <= month <= 12 then DaysPerMonth[month - 1]
    else 30
  }

  /** Days of `year` before the first of `month` (the month loop of the day index). */
  function MonthsBefore(year: int, month: int): int
  {
    if month <= 1 then 0 else MonthsBefore(year, month - 1) + DaysInMonth(year, month - 1)
  }

  /** The twelve month lengths add up to the length of the year. */
  lemma MonthsBeforeYear(year: int)
    ensures MonthsBefore(year, 13) == DaysInYear(year)
  {
    assert MonthsBefore(year, 2) == 31;
    assert MonthsBefore(year, 3) == 31 + DaysInMonth(year, 2);
    assert MonthsBefore(year, 4) == 62 + DaysInMonth(year, 2);
    assert MonthsBefore(year, 5) == 92 + DaysInMonth(year, 2);
    assert MonthsBefore(year, 6) == 123 + DaysInMonth(year, 2);
    assert MonthsBefore(year, 7) == 153 + DaysInMonth(year, 2);
    assert MonthsBefore(year, 8) == 184 + DaysInMonth(year, 2);
    assert MonthsBefore(year, 9) == 215 + DaysInMonth(year, 2);
    assert MonthsBefore(year, 10) == 245 + DaysInMonth(year, 2);
    assert MonthsBefore(year, 11) == 276 + DaysInMonth(year, 2);
    assert MonthsBefore(year, 12) == 306 + DaysInMonth(year, 2);
  }

  lemma {:induction false} MonthsBeforeMono(year: int, m1: int, m2: int)
    requires 1 <= m1 <= m2
    ensures MonthsBefore(year, m1) + (if m1 < m2 then DaysInMonth(year, m1) else 0) <= MonthsBefore(year, m2)
    decreases m2 - m1
  {
    if m1 < m2 {
      MonthsBeforeMono(year, m1, m2 - 1);
    }
  }

  // ---------------------------------------------------------------------------
  // Day index

  /** Days in the years from 2025 up to, not including, `year` (zero for years
      up to 2025): the year loop of `dateToNumber`. */
  function YearsBefore(year: int): int
    decreases year - 2025
  {
    if year <= 2025 then 0 else YearsBefore(year - 1) + DaysInYear(year - 1)
  }

  /** The signed day index of January 1st of `year`, counted from 2025-01-01; it
      agrees with `YearsBefore` from 2025 on and extends it to earlier years. */
  function YearStart(year: int): int
    decreases if year >= 2025 then 0 else 2025 - year
  {
    if year >= 2025 then YearsBefore(year) else YearStart(year + 1) - DaysInYear(year)
  }

  lemma YearStartStep(year: int)
    ensures YearStart(year + 1) == YearStart(year) + DaysInYear(year)
  {
  }

  lemma {:induction false} YearStartMono(y1: int, y2: int)
    requires y1 <= y2
    ensures YearStart(y1) <= YearStart(y2)
    decreases y2 - y1
  {
    if y1 < y2 {
      YearStartMono(y1, y2 - 1);
      YearStartStep(y2 - 1);
    }
  }

  /** The calendar's own day count of a (possibly unnormalised) position:
      `day` may run past the end of `month`. */
  function Ord(year: int, month: int, day: int): int
  {
    YearStart(year) + MonthsBefore(year, month) + day - 1
  }

  /** Day index of a date, exact for every normalised date of any year. */
  function Ordinal(d: GameDate): int
  {
    Ord(d.year, d.month, d.day)
  }

  /** Month in 1..12 and day within the month. */
  predicate IsNormalized(d: GameDate)
  {
    1 <= d.month <= 12 && 1 <= d.day <= DaysInMonth(d.year, d.month)
  }

  /** The value `dateToNumber` computes: its year loop counts nothing before 2025. */
  function DayNumber(d: GameDate): int
  {
    YearsBefore(d.year) + MonthsBefore(d.year, d.month) + d.day - 1
  }

  lemma DayNumberIsOrdinal(d: GameDate)
    requires d.year >= 2025
    ensures DayNumber(d) == Ordinal(d)
  {
  }

  lemma DayNumberOfStart()
    ensures DayNumber(GameStart) == 0
  {
  }

  method DateToNumber(date: GameDate) returns (days: int)
    ensures days == DayNumber(date)
  {
    days := 0;
    var year := 2025;
    while year < date.year
      invariant 2025 <= year && (year <= date.year || year == 2025)
      invariant days == YearsBefore(year)
      decreases date.year - year
    {
      days := days + (if IsLeapYear(year) then 366 else 365);
      year := year + 1;
    }
    assert days == YearsBefore(date.year);
    var month := 1;
    while month < date.month
      invariant 1 <= month && (month <= date.month || month == 1)
      invariant days == YearsBefore(date.year) + MonthsBefore(date.year, month)
      decreases date.month - month
    {
      days := days + DaysInMonth(date.year, month);
      month := month + 1;
    }
    days := days + date.day - 1;
  }

  /** The month loop of `numberToDate`: skip whole months while the rest covers them. */
  function MonthWalk(rest: int, year: int, month: int): GameDate
    decreases rest
  {
    if rest >= DaysInMonth(year, month) then MonthWalk(rest - DaysInMonth(year, month), year, month + 1)
    else GameDate(year, month, rest + 1)
  }

  /** The year loop of `numberToDate`. */
  function YearWalk(rest: int, year: int): GameDate
    decreases rest
  {
    if rest >= DaysInYear(year) then YearWalk(rest - DaysInYear(year), year + 1)
    else MonthWalk(rest, year, 1)
  }

  /** The date `numberToDate` computes from a day index. */
  function DateOfDayNumber(n: int): GameDate
  {
    YearWalk(n, 2025)
  }

  method NumberToDate(dayNumber: int) returns (date: GameDate)
    ensures date == DateOfDayNumber(dayNumber)
  {
    var remaining := dayNumber;
    var year := 2025;
    while remaining >= (if IsLeapYear(year) then 366 else 365)
      invariant YearWalk(remaining, year) == DateOfDayNumber(dayNumber)
      decreases remaining
    {
      remaining := remaining - (if IsLeapYear(year) then 366 else 365);
      year := year + 1;
    }
    var month := 1;
    while remaining >= DaysInMonth(year, month)
      invariant MonthWalk(remaining, year, month) == DateOfDayNumber(dayNumber)
      decreases remaining
    {
      remaining := remaining - DaysInMonth(year, month);
      month := month + 1;
    }
    date := GameDate(year, month, remaining + 1);
  }

  lemma {:induction false} MonthWalkLands(rest: int, year: int, month: int)
    requires 0 <= rest && 1 <= month <= 12
    requires MonthsBefore(year, month) + rest < DaysInYear(year)
    ensures var r := MonthWalk(rest, year, month);
      IsNormalized(r) && r.year == year &&
      MonthsBefore(year, r.month) + r.day - 1 == MonthsBefore(year, month) + rest
    decreases rest
  {
    if rest >= DaysInMonth(year, month) {
      MonthsBeforeYear(year);
      MonthsBeforeMono(year, month + 1, 13);
      MonthWalkLands(rest - DaysInMonth(year, month), year, month + 1);
    }
  }

  lemma {:induction false} YearWalkLands(rest: int, year: int)
    requires 0 <= rest && year >= 2025
    ensures var r := YearWalk(rest, year);
      IsNormalized(r) && r.year >= 2025 && DayNumber(r) == YearsBefore(year) + rest
    decreases rest
  {
    if rest >= DaysInYear(year) {
      YearWalkLands(rest - DaysInYear(year), year + 1);
    } else {
      MonthWalkLands(rest, year, 1);
    }
  }

  /** Every non-negative day index names a normalised date with that index. */
  lemma DayNumberOfDate(n: int)
    requires n >= 0
    ensures IsNormalized(DateOfDayNumber(n)) && DateOfDayNumber(n).year >= 2025
    ensures DayNumber(DateOfDayNumber(n)) == n
  {
    YearWalkLands(n, 2025);
  }

  lemma {:induction false} MonthWalkFinds(d: GameDate, month: int)
    requires IsNormalized(d) && 1 <= month <= d.month
    ensures MonthWalk(MonthsBefore(d.year, d.month) - MonthsBefore(d.year, month) + d.day - 1, d.year, month) == d
    decreases d.month - month
  {
    if month < d.month {
      MonthsBeforeMono(d.year, month, d.month);
      assert MonthsBefore(d.year, month + 1) == MonthsBefore(d.year, month) + DaysInMonth(d.year, month);
      MonthWalkFinds(d, month + 1);
    }
  }

  lemma {:induction false} YearWalkFinds(d: GameDate, year: int)
    requires IsNormalized(d) && 2025 <= year <= d.year
    ensures YearWalk(DayNumber(d) - YearsBefore(year), year) == d
    decreases d.year - year
  {
    var rest := DayNumber(d) - YearsBefore(year);
    MonthsBeforeMono(d.year, d.month, 13);
    MonthsBeforeYear(d.year);
    MonthsBeforeMono(d.year, 1, d.month);
    if year < d.year {
      YearStartMono(year + 1, d.year);
      assert YearStart(year + 1) == YearsBefore(year) + DaysInYear(year);
      assert YearStart(d.year) == YearsBefore(d.year);
      assert rest >= DaysInYear(year);
      YearWalkFinds(d, year + 1);
    } else {
      MonthWalkFinds(d, 1);
    }
  }

  /** Every normalised date from 2025 on is found again from its day index. */
  lemma DateOfDayNumberInverse(d: GameDate)
    requires IsNormalized(d) && d.year >= 2025
    ensures DateOfDayNumber(DayNumber(d)) == d
  {
    YearWalkFinds(d, 2025);
  }

  // ---------------------------------------------------------------------------
  // Order of normalised dates

  lemma OrdinalWithinYear(d: GameDate)
    requires IsNormalized(d)
    ensures YearStart(d.year) <= Ordinal(d) < YearStart(d.year + 1)
  {
    MonthsBeforeMono(d.year, d.month, 13);
    MonthsBeforeMono(d.year, 1, d.month);
    MonthsBeforeYear(d.year);
  }

  /** The day index grows strictly with the (year, month, day) order. */
  lemma OrdinalStrictlyMonotone(a: GameDate, b: GameDate)
    requires IsNormalized(a) && IsNormalized(b)
    requires CompareDates(a, b) < 0
    ensures Ordinal(a) < Ordinal(b)
  {
    if a.year < b.year {
      OrdinalWithinYear(a);
      OrdinalWithinYear(b);
      YearStartMono(a.year + 1, b.year);
    } else if a.month < b.month {
      MonthsBeforeMono(a.year, a.month, b.month);
    }
  }

  lemma OrdinalInjective(a: GameDate, b: GameDate)
    requires IsNormalized(a) && IsNormalized(b) && Ordinal(a) == Ordinal(b)
    ensures a == b
  {
    if CompareDates(a, b) < 0 {
      OrdinalStrictlyMonotone(a, b);
    } else if CompareDates(b, a) < 0 {
      OrdinalStrictlyMonotone(b, a);
    }
  }

  /** `compareDates`: the first differing component decides. */
  function CompareDates(a: GameDate, b: GameDate): int
  {
    if a.year != b.year then a.year - b.year
    else if a.month != b.month then a.month - b.month
    else a.day - b.day
  }

  predicate IsSameDate(a: GameDate, b: GameDate)
  {
    a.year == b.year && a.month == b.month && a.day == b.day
  }

  /** `daysBetween`: the difference of the two day indices. */
  function DaysBetween(startDate: GameDate, endDate: GameDate): int
  {
    DayNumber(endDate) - DayNumber(startDate)
  }

  /** On normalised dates from 2025 on, `compareDates(a, b)` has the sign of
      `daysBetween(b, a)`. */
  lemma CompareDatesSign(a: GameDate, b: GameDate)
    requires IsNormalized(a) && IsNormalized(b) && a.year >= 2025 && b.year >= 2025
    ensures CompareDates(a, b) < 0 <==> DaysBetween(b, a) < 0
    ensures CompareDates(a, b) == 0 <==> DaysBetween(b, a) == 0
    ensures CompareDates(a, b) > 0 <==> DaysBetween(b, a) > 0
  {
    DayNumberIsOrdinal(a);
    DayNumberIsOrdinal(b);
    if CompareDates(a, b) < 0 {
      OrdinalStrictlyMonotone(a, b);
    } else if CompareDates(b, a) < 0 {
      OrdinalStrictlyMonotone(b, a);
    }
  }

  // ---------------------------------------------------------------------------
  // Date arithmetic

  /** `addDays`: add `days` to the day, then carry whole months forwards (or
      borrow them backwards) until the day lies within its month. */
  method AddDays(date: GameDate, days: int) returns (r: GameDate)
    requires IsNormalized(date)
    ensures IsNormalized(r)
    ensures Ordinal(r) == Ordinal(date) + days
    ensures date.year >= 2025 && r.year >= 2025 ==> DayNumber(r) == DayNumber(date) + days
    ensures days == 0 ==> r == date
  {
    var year, month, day := date.year, date.month, date.day + days;
    while day > DaysInMonth(year, month)
      invariant 1 <= month <= 12
      invariant Ord(year, month, day) == Ordinal(date) + days
      decreases day
    {
      day := day - DaysInMonth(year, month);
      month := month + 1;
      if month > 12 {
        MonthsBeforeYear(year);
        month := 1;
        year := year + 1;
      }
    }
    while day < 1
      invariant 1 <= month <= 12
      invariant day <= DaysInMonth(year, month)
      invariant Ord(year, month, day) == Ordinal(date) + days
      decreases -day
    {
      month := month - 1;
      if month < 1 {
        MonthsBeforeYear(year - 1);
        month := 12;
        year := year - 1;
      }
      day := day + DaysInMonth(year, month);
    }
    r := GameDate(year, month, day);
    if days == 0 {
      OrdinalInjective(r, date);
    }
  }

  /** `addMonths`: carry the month into 1..12 through the year, then cut the day
      down to the length of the new month. */
  method AddMonths(date: GameDate, months: int) returns (r: GameDate)
    ensures 1 <= r.month <= 12
    ensures r.year * 12 + r.month == date.year * 12 + date.month + months
    ensures r.day == if date.day > DaysInMonth(r.year, r.month) then DaysInMonth(r.year, r.month) else date.day
    ensures 1 <= date.day ==> IsNormalized(r)
  {
    var year, month := date.year, date.month + months;
    while month > 12
      invariant year * 12 + month == date.year * 12 + date.month + months
      decreases month
    {
      month := month - 12;
      year := year + 1;
    }
    while month < 1
      invariant month <= 12
      invariant year * 12 + month == date.year * 12 + date.month + months
      decreases -month
    {
      month := month + 12;
      year := year - 1;
    }
    var day := date.day;
    var maxDays := DaysInMonth(year, month);
    if day > maxDays {
      day := maxDays;
    }
    r := GameDate(year, month, day);
  }

  /** `addYears` moves the year only and does not normalise. */
  function AddYears(date: GameDate, years: int): (r: GameDate)
    ensures r.month == date.month && r.day == date.day && r.year - date.year == years
  {
    date.(year := date.year + years)
  }

  /** February 29th of a leap year plus one year is February 29th of a common
      year: not a valid date. */
  lemma AddYearsKeepsLeapDay()
    ensures AddYears(GameDate(2028, 2, 29), 1) == GameDate(2029, 2, 29)
    ensures !IsNormalized(GameDate(2029, 2, 29))
  {
  }

  // ---------------------------------------------------------------------------
  // Validity and clamping

  predicate IsValidDate(date: GameDate)
  {
    2025 <= date.year <= 2037 && 1 <= date.month <= 12 && 1 <= date.day <= DaysInMonth(date.year, date.month)
  }

  function Clamp(lo: int, hi: int, x: int): int
  {
    if x < lo then lo else if x > hi then hi else x
  }

  /** `clampDate`: year into 2025..2037, month into 1..12, day into the month. */
  function ClampDate(date: GameDate): (r: GameDate)
    ensures IsValidDate(r)
    ensures IsValidDate(date) ==> r == date
  {
    var year := Clamp(2025, 2037, date.year);
    var month := Clamp(1, 12, date.month);
    GameDate(year, month, Clamp(1, DaysInMonth(year, month), date.day))
  }

  // ---------------------------------------------------------------------------
  // Legislature periods and elections

  datatype Legislature = Legislature(period: nat, start: GameDate, end: GameDate)

  /** Period 1 before 2029, period 2 from 2029, period 3 from 2033; a period
      runs from January 1st of its first year to December 31st four years later. */
  function LegislaturePeriod(date: GameDate): (r: Legislature)
    ensures r.period == (if date.year < 2029 then 1 else if date.year < 2033 then 2 else 3)
    ensures r.start == GameDate(2025 + 4 * (r.period - 1), 1, 1)
    ensures r.end == GameDate(r.start.year + 4, 12, 31)
    ensures IsValidDate(r.start) && IsValidDate(r.end)
  {
    var period: nat := if date.year >= 2033 then 3 else if date.year >= 2029 then 2 else 1;
    var startYear := if date.year >= 2033 then 2033 else if date.year >= 2029 then 2029 else 2025;
    Legislature(period, GameDate(startYear, 1, 1), GameDate(startYear + 4, 12, 31))
  }

  /** Every date of the era lies within its own legislature period. */
  lemma WithinLegislature(date: GameDate)
    requires IsValidDate(date)
    ensures CompareDates(LegislaturePeriod(date).start, date) <= 0
    ensures CompareDates(date, LegislaturePeriod(date).end) <= 0
  {
  }

  function JumpToNextYear(date: GameDate): (r: GameDate)
    ensures r.year == date.year + 1 && r.month == 1 && r.day == 1
  {
    GameDate(date.year + 1, 1, 1)
  }

  function JumpToLegislatureEnd(date: GameDate): GameDate
  {
    LegislaturePeriod(date).end
  }

  /** Where `jumpToLegislatureEnd` lands: 2025–2028 jump to the end of 2029,
      2029–2032 to the end of 2033, later years to the end of 2037; from within
      the era it never goes back, and the end of the game is a fixpoint. */
  lemma JumpToLegislatureEndTargets(date: GameDate)
    ensures date.year < 2029 ==> JumpToLegislatureEnd(date) == GameDate(2029, 12, 31)
    ensures 2029 <= date.year < 2033 ==> JumpToLegislatureEnd(date) == GameDate(2033, 12, 31)
    ensures 2033 <= date.year ==> JumpToLegislatureEnd(date) == GameEnd
    ensures IsValidDate(date) ==> CompareDates(date, JumpToLegislatureEnd(date)) <= 0
    ensures JumpToLegislatureEnd(GameEnd) == GameEnd
  {
  }

  function NextElectionDate(date: GameDate): (r: GameDate)
    ensures r in ElectionDates
    ensures date.year < 2037 ==> date.year < r.year
    ensures forall e :: e in ElectionDates && date.year < e.year ==> r.year <= e.year
  {
    if date.year < 2029 then GameDate(2029, 9, 26)
    else if date.year < 2033 then GameDate(2033, 9, 26)
    else GameDate(2037, 9, 26)
  }

  function JumpToNextElection(date: GameDate): GameDate
  {
    NextElectionDate(date)
  }

  predicate IsElectionYear(date: GameDate)
  {
    date.year in [2029, 2033, 2037]
  }

  /** An election year is exactly the year of one of the election dates. */
  lemma ElectionYears(date: GameDate)
    ensures IsElectionYear(date) <==> exists e :: e in ElectionDates && e.year == date.year
  {
    if IsElectionYear(date) {
      assert ElectionDates[(date.year - 2029) / 4].year == date.year;
    }
  }

  predicate IsNewYear(date: GameDate)
  {
    date.month == 1 && date.day == 1
  }

  predicate IsYearEnd(date: GameDate)
  {
    date.month == 12 && date.day == 31
  }

  /** One day later lies in the same year or the next. */
  lemma NextDayYear(date: GameDate, next: GameDate)
    requires IsNormalized(date) && IsNormalized(next) && Ordinal(next) == Ordinal(date) + 1
    ensures next.year == date.year || next.year == date.year + 1
  {
    OrdinalWithinYear(date);
    OrdinalWithinYear(next);
    YearStartStep(date.year);
    if next.year < date.year {
      YearStartMono(next.year + 1, date.year);
    } else if next.year > date.year + 1 {
      YearStartMono(date.year + 1, next.year - 1);
      YearStartStep(next.year - 1);
    }
  }

  /** One day later lies in another year exactly at the end of a year. */
  lemma NextDayChangesYear(date: GameDate, next: GameDate)
    requires IsNormalized(date) && IsNormalized(next) && Ordinal(next) == Ordinal(date) + 1
    ensures next.year != date.year <==> IsYearEnd(date)
    ensures next.year != date.year ==> next.year == date.year + 1 && IsNewYear(next)
  {
    NextDayYear(date, next);
    OrdinalWithinYear(date);
    OrdinalWithinYear(next);
    YearStartStep(date.year);
    MonthsBeforeYear(date.year);
    if IsYearEnd(date) {
      assert Ordinal(date) + 1 == YearStart(date.year + 1);
    } else if date.day < DaysInMonth(date.year, date.month) {
      MonthsBeforeMono(date.year, date.month, 13);
    } else {
      assert date.month < 12;
      MonthsBeforeMono(date.year, date.month + 1, 13);
    }
    if next.year == date.year + 1 {
      MonthsBeforeMono(next.year, 1, next.month);
      if next.month > 1 {
        MonthsBeforeMono(next.year, 1, next.month);
      }
    }
  }

  // ---------------------------------------------------------------------------
  // Progress

  /** `Math.round` for the non-negative values it is applied to. */
  function Round(x: real): int
  {
    (x + 0.5).Floor
  }

  /** A share of `passed` out of `total` days, rounded to whole percent, lies in
      0..100 and is 100 for the last day. */
  lemma RoundedShare(passed: int, total: int)
    requires 1 <= passed <= total
    ensures 0 <= Round(passed as real / total as real * 100.0) <= 100
    ensures passed == total ==> Round(passed as real / total as real * 100.0) == 100
  {
    var q := passed as real / total as real;
    assert q * total as real == passed as real;
    assert 0.0 < q <= 1.0;
    if passed == total {
      assert q == 1.0;
      assert q * 100.0 + 0.5 == 100.5;
    }
  }

  /** Share of the year passed, in whole percent. */
  function YearProgress(date: GameDate): (r: int)
    ensures IsNormalized(date) ==> 0 <= r <= 100
    ensures IsYearEnd(date) ==> r == 100
  {
    var yearStart := GameDate(date.year, 1, 1);
    var yearEnd := GameDate(date.year, 12, 31);
    MonthsBeforeYear(date.year);
    var totalDays := DaysBetween(yearStart, yearEnd) + 1;
    var passedDays := DaysBetween(yearStart, date) + 1;
    assert totalDays == DaysInYear(date.year);
    assert IsNormalized(date) ==> 1 <= passedDays <= totalDays by {
      if IsNormalized(date) {
        MonthsBeforeMono(date.year, 1, date.month);
        MonthsBeforeMono(date.year, date.month, 13);
      }
    }
    var share := Round(passedDays as real / totalDays as real * 100.0);
    assert IsNormalized(date) ==> 0 <= share <= 100 && (passedDays == totalDays ==> share == 100) by {
      if IsNormalized(date) {
        RoundedShare(passedDays, totalDays);
      }
    }
    share
  }

  /** Within a legislature period the days passed run from 1 to the length of the period. */
  lemma LegislatureDays(date: GameDate)
    ensures DaysBetween(LegislaturePeriod(date).start, LegislaturePeriod(date).end) >= 0
    ensures IsValidDate(date) ==>
      0 <= DaysBetween(LegislaturePeriod(date).start, date) <=
      DaysBetween(LegislaturePeriod(date).start, LegislaturePeriod(date).end)
  {
    var legislature := LegislaturePeriod(date);
    DayNumberIsOrdinal(legislature.start);
    DayNumberIsOrdinal(legislature.end);
    OrdinalStrictlyMonotone(legislature.start, legislature.end);
    if IsValidDate(date) {
      DayNumberIsOrdinal(date);
      WithinLegislature(date);
      if CompareDates(legislature.start, date) < 0 {
        OrdinalStrictlyMonotone(legislature.start, date);
      }
      if CompareDates(date, legislature.end) < 0 {
        OrdinalStrictlyMonotone(date, legislature.end);
      }
    }
  }

  /** Share of the legislature period passed, in whole percent. */
  function LegislatureProgress(date: GameDate): (r: int)
    ensures IsValidDate(date) ==> 0 <= r <= 100
    ensures date == GameEnd ==> r == 100
  {
    var legislature := LegislaturePeriod(date);
    LegislatureDays(date);
    var totalDays := DaysBetween(legislature.start, legislature.end) + 1;
    var passedDays := DaysBetween(legislature.start, date) + 1;
    var share := Round(passedDays as real / totalDays as real * 100.0);
    assert IsValidDate(date) ==> 0 <= share <= 100 && (passedDays == totalDays ==> share == 100) by {
      if IsValidDate(date) {
        RoundedShare(passedDays, totalDays);
      }
    }
    share
  }

  // ---------------------------------------------------------------------------
  // Timer (times in milliseconds; `now` is the wall clock at the call)

  function CreateTimer(): (t: Timer)
    ensures !t.isRunning && t.startTime == None && t.elapsedTime == 0
  {
    Timer(false, None, 0, 0)
  }

  /** Starting a running timer changes nothing; otherwise a session begins at `now`. */
  function StartTimer(timer: Timer, now: int): (r: Timer)
    ensures timer.isRunning ==> r == timer
    ensures !timer.isRunning ==> r.isRunning && r.startTime == Some(now) && r.elapsedTime == timer.elapsedTime
  {
    if timer.isRunning then timer
    else timer.(isRunning := true, startTime := Some(now))
  }

  /** Pausing folds the session `now - startTime` into the elapsed time. */
  function PauseTimer(timer: Timer, now: int): (r: Timer)
    ensures !timer.isRunning || timer.startTime == None ==> r == timer
    ensures timer.isRunning && timer.startTime.Some? ==>
      !r.isRunning && r.startTime == None && r.pausedTime == now &&
      r.elapsedTime == timer.elapsedTime + (now - timer.startTime.value)
  {
    if !timer.isRunning || timer.startTime.None? then timer
    else timer.(isRunning := false, elapsedTime := timer.elapsedTime + (now - timer.startTime.value),
                pausedTime := now, startTime := None)
  }

  function TotalElapsedTime(timer: Timer, now: int): int
  {
    if !timer.isRunning || timer.startTime.None? then timer.elapsedTime
    else timer.elapsedTime + (now - timer.startTime.value)
  }

  /** Pausing loses no time: the elapsed time after a pause at `now` is the total
      the running timer showed at `now`, and a start at `t0` followed by a pause
      at `t1` adds exactly `t1 - t0`. */
  lemma PauseKeepsTotal(timer: Timer, t0: int, t1: int)
    ensures PauseTimer(timer, t1).elapsedTime == TotalElapsedTime(timer, t1)
    ensures !timer.isRunning ==>
      PauseTimer(StartTimer(timer, t0), t1).elapsedTime == timer.elapsedTime + (t1 - t0)
    ensures !PauseTimer(timer, t1).isRunning || timer.startTime == None
  {
  }

  /** `formatElapsedTime`: hours, minutes and seconds, each at least two digits. */
  function FormatElapsedTime(milliseconds: nat): string
  {
    var totalSeconds := milliseconds / 1000;
    var hours := totalSeconds / 3600;
    var minutes := (totalSeconds % 3600) / 60;
    var seconds := totalSeconds % 60;
    Clock(hours, minutes, seconds)
  }

  /** Hours, minutes and seconds, each padded to two digits, joined by colons. */
  function Clock(hours: nat, minutes: nat, seconds: nat): string
  {
    Text.PadStart(Text.NatToString(hours), 2, '0') + ":" +
    Text.PadStart(Text.NatToString(minutes), 2, '0') + ":" +
    Text.PadStart(Text.NatToString(seconds), 2, '0')
  }

  // ---------------------------------------------------------------------------
  // Yearly decision limit

  predicate CanMakeDecision(decisionsThisYear: int, maxDecisions: int)
  {
    decisionsThisYear < maxDecisions
  }

  const LimitReachedMessage := "Entscheidungslimit " + "für dieses Jahr erreicht!"
  const LastDecisionMessage := "Dies ist Ihre letzte " + "Entscheidung für dieses Jahr!"

  function RemainingMessage(remaining: int): string
  {
    "Nur noch " + Text.IntToString(remaining) + " Entscheidungen für dieses Jahr verfügbar."
  }

  /** The warning shown next to the decision counter, if any. */
  function DecisionWarning(decisionsThisYear: int, maxDecisions: int): (r: Option<string>)
    ensures r == Some(LimitReachedMessage) <==> decisionsThisYear >= maxDecisions
    ensures r == Some(LastDecisionMessage) <==> decisionsThisYear == maxDecisions - 1
    ensures maxDecisions - 3 <= decisionsThisYear < maxDecisions - 1 <==>
      r == Some(RemainingMessage(maxDecisions - decisionsThisYear))
    ensures r == None <==> decisionsThisYear < maxDecisions - 3
  {
    assert LimitReachedMessage[0] == 'E' && LastDecisionMessage[0] == 'D';
    assert forall k :: RemainingMessage(k)[0] == 'N';
    if decisionsThisYear >= maxDecisions then Some(LimitReachedMessage)
    else if decisionsThisYear == maxDecisions - 1 then Some(LastDecisionMessage)
    else if decisionsThisYear >= maxDecisions - 3 then Some(RemainingMessage(maxDecisions - decisionsThisYear))
    else None
  }

  /** The warning agrees with the limit test: a warning of the limit exactly when
      no decision may be made. */
  lemma WarningMatchesLimit(decisionsThisYear: int, maxDecisions: int)
    ensures CanMakeDecision(decisionsThisYear, maxDecisions) <==>
      DecisionWarning(decisionsThisYear, maxDecisions) != Some(LimitReachedMessage)
  {
  }

  // ---------------------------------------------------------------------------
  // Date rendering

  datatype DateFormat = Short | Long

  /** `formatGameDate`: `DD.MM.YYYY`, or `D. <Monat> YYYY` with 'Unknown' for a
      month outside 1..12. */
  function FormatGameDate(date: GameDate, format: DateFormat): string
  {
    if format == Short then
      Text.PadStart(Text.IntToString(date.day), 2, '0') + "." +
      Text.PadStart(Text.IntToString(date.month), 2, '0') + "." + Text.IntToString(date.year)
    else
      var monthName := if 1 <= date.month <= 12 then MonthNames[date.month - 1] else "Unknown";
      Text.IntToString(date.day) + ". " + monthName + " " + Text.IntToString(date.year)
  }
}
