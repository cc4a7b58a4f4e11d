/**
 * The formatting rules of the user interface that carry logic: elapsed time as
 * `HH:MM:SS`, dates, the colour bands of values and changes, the grade badges
 * and the sign prefixes of amounts. The decimal rendering of fractional numbers
 * (`toFixed`, `toLocaleString`) is not modelled: an amount is rendered as its
 * prefix, the number it shows and its suffix.
 */
module Formatters {
  import opened Types
  import Text
  import TimeManager

  // ---------------------------------------------------------------------------
  // Elapsed time

  /** `formatTime`: whole seconds split into hours, minutes and seconds, each
      padded to two digits and joined by colons. */
  function FormatTime(milliseconds: nat): (r: string)
    ensures r == TimeManager.FormatElapsedTime(milliseconds)
  {
    var totalSeconds := milliseconds / 1000;
    var hours := totalSeconds / 3600;
    var minutes := (totalSeconds % 3600) / 60;
    var seconds := totalSeconds % 60;
    TimeManager.Clock(hours, minutes, seconds)
  }

  /** Three digit fields, the first two of two digits, separated by `sep`. */
  predicate Fields3(r: string, sep: char)
  {
    |r| >= 7 && r[2] == sep && r[5] == sep &&
    Text.AllDigits(r[..2]) && Text.AllDigits(r[3..5]) && Text.AllDigits(r[6..])
  }

  /** The values of the three fields. */
  function FirstField(r: string, sep: char): nat
    requires Fields3(r, sep)
  {
    Text.ParseNat(r[..2])
  }

  function SecondField(r: string, sep: char): nat
    requires Fields3(r, sep)
  {
    Text.ParseNat(r[3..5])
  }

  function ThirdField(r: string, sep: char): nat
    requires Fields3(r, sep)
  {
    Text.ParseNat(r[6..])
  }

  /** Joining two two-digit fields and a third by `sep` gives text whose fields
      read back as the parts. */
  lemma JoinFields(a: string, b: string, c: string, sep: char)
    requires |a| == 2 && |b| == 2 && 1 <= |c|
    requires Text.AllDigits(a) && Text.AllDigits(b) && Text.AllDigits(c)
    ensures var r := a + [sep] + b + [sep] + c;
      |r| == 6 + |c| && Fields3(r, sep) &&
      FirstField(r, sep) == Text.ParseNat(a) && SecondField(r, sep) == Text.ParseNat(b) &&
      ThirdField(r, sep) == Text.ParseNat(c)
  {
    var r := a + [sep] + b + [sep] + c;
    assert r == (a + [sep] + b + [sep]) + c;
    assert r[..2] == a && r[3..5] == b && r[6..] == c;
  }

  lemma Sixty(x: int, q: int, rest: int)
    requires x == 60 * q + rest && 0 <= rest < 60
    ensures x % 60 == rest
  {
  }

  /** Hours, minutes and seconds add up to the whole seconds. */
  lemma SplitSeconds(totalSeconds: nat)
    ensures (totalSeconds / 3600) * 3600 + ((totalSeconds % 3600) / 60) * 60 + totalSeconds % 60 == totalSeconds
    ensures (totalSeconds % 3600) / 60 < 60
  {
    var hours, rest := totalSeconds / 3600, totalSeconds % 3600;
    assert totalSeconds == 60 * (60 * hours + rest / 60) + rest % 60;
    Sixty(totalSeconds, 60 * hours + rest / 60, rest % 60);
  }

  /** A clock of fewer than 100 hours reads back as its three parts. */
  lemma ClockReadsBack(hours: nat, minutes: nat, seconds: nat)
    requires hours < 100 && minutes < 100 && seconds < 100
    ensures var r := TimeManager.Clock(hours, minutes, seconds);
      |r| == 8 && Fields3(r, ':') &&
      FirstField(r, ':') == hours && SecondField(r, ':') == minutes && ThirdField(r, ':') == seconds
  {
    Text.Pad2Parses(hours);
    Text.Pad2Parses(minutes);
    Text.Pad2Parses(seconds);
    var hh := Text.PadStart(Text.NatToString(hours), 2, '0');
    var mm := Text.PadStart(Text.NatToString(minutes), 2, '0');
    var ss := Text.PadStart(Text.NatToString(seconds), 2, '0');
    assert TimeManager.Clock(hours, minutes, seconds) == hh + [':'] + mm + [':'] + ss;
    JoinFields(hh, mm, ss, ':');
  }

  /** Below 100 hours the text is `HH:MM:SS`, and reading its three fields back
      gives the whole seconds, with minutes and seconds below 60. */
  lemma FormatTimeReadsBack(milliseconds: nat)
    requires milliseconds / 1000 < 100 * 3600
    ensures var r := FormatTime(milliseconds);
      |r| == 8 && Fields3(r, ':') && SecondField(r, ':') < 60 && ThirdField(r, ':') < 60 &&
      FirstField(r, ':') * 3600 + SecondField(r, ':') * 60 + ThirdField(r, ':') == milliseconds / 1000
  {
    var totalSeconds := milliseconds / 1000;
    SplitSeconds(totalSeconds);
    ClockReadsBack(totalSeconds / 3600, (totalSeconds % 3600) / 60, totalSeconds % 60);
  }

  // ---------------------------------------------------------------------------
  // Dates

  datatype DateFormat = Short | Long

  /** `formatDate`: `DD.MM.YYYY`, or `D. <Monat> YYYY`; a month outside 1..12
      indexes past the month names and is printed as "undefined". */
  function FormatDate(date: GameDate, format: DateFormat): string
  {
    if format == Long then
      var monthName := if 1 <= date.month <= 12 then TimeManager.MonthNames[date.month - 1] else "undefined";
      Text.IntToString(date.day) + ". " + monthName + " " + Text.IntToString(date.year)
    else ShortDate(date.day, date.month, date.year)
  }

  /** `DD.MM.YYYY`: day and month padded to two characters. */
  function ShortDate(day: int, month: int, year: int): string
  {
    Text.PadStart(Text.IntToString(day), 2, '0') + "." +
    Text.PadStart(Text.IntToString(month), 2, '0') + "." + Text.IntToString(year)
  }

  /** A day and a month of one or two digits and a year give fields that read
      back as the three numbers. */
  lemma ShortDateReadsBack(day: nat, month: nat, year: nat)
    requires day < 100 && month < 100
    ensures var r := ShortDate(day, month, year);
      Fields3(r, '.') && FirstField(r, '.') == day && SecondField(r, '.') == month &&
      ThirdField(r, '.') == year
  {
    Text.IntPad2Parses(day);
    Text.IntPad2Parses(month);
    Text.IntToStringParses(year);
    var dd := Text.PadStart(Text.IntToString(day), 2, '0');
    var mm := Text.PadStart(Text.IntToString(month), 2, '0');
    var yyyy := Text.IntToString(year);
    assert ShortDate(day, month, year) == dd + ['.'] + mm + ['.'] + yyyy;
    JoinFields(dd, mm, yyyy, '.');
  }

  /** A day and a month of one or two digits give `DD.MM.YYYY`, and the three
      fields read back as the date. */
  lemma FormatDateShortReadsBack(date: GameDate)
    requires 1 <= date.day < 100 && 1 <= date.month < 100 && date.year >= 0
    ensures var r := FormatDate(date, Short);
      Fields3(r, '.') && FirstField(r, '.') == date.day && SecondField(r, '.') == date.month &&
      ThirdField(r, '.') == date.year
  {
    ShortDateReadsBack(date.day, date.month, date.year);
  }

  /** The long form names the month, or says "undefined" for a month outside 1..12. */
  lemma FormatDateLongNamesMonth(date: GameDate)
    ensures Text.Contains(FormatDate(date, Long),
      if 1 <= date.month <= 12 then TimeManager.MonthNames[date.month - 1] else "undefined")
  {
    var name := if 1 <= date.month <= 12 then TimeManager.MonthNames[date.month - 1] else "undefined";
    var prefix := Text.IntToString(date.day) + ". ";
    var r := FormatDate(date, Long);
    assert r == prefix + name + " " + Text.IntToString(date.year);
    assert r[|prefix|..|prefix| + |name|] == name;
    assert Text.OccursAt(r, name, |prefix|);
  }

  /** The game-date formatter of the time manager writes the same short form,
      so it too reads back as the date. */
  lemma GameDateShortReadsBack(date: GameDate)
    requires 1 <= date.day < 100 && 1 <= date.month < 100 && date.year >= 0
    ensures TimeManager.FormatGameDate(date, TimeManager.Short) == FormatDate(date, Short)
    ensures var r := TimeManager.FormatGameDate(date, TimeManager.Short);
      Fields3(r, '.') && FirstField(r, '.') == date.day && SecondField(r, '.') == date.month &&
      ThirdField(r, '.') == date.year
  {
    assert TimeManager.FormatGameDate(date, TimeManager.Short) == ShortDate(date.day, date.month, date.year);
    ShortDateReadsBack(date.day, date.month, date.year);
  }

  /** The time manager's long form names the month, or says "Unknown" for a
      month outside 1..12. */
  lemma GameDateLongNamesMonth(date: GameDate)
    ensures Text.Contains(TimeManager.FormatGameDate(date, TimeManager.Long),
      if 1 <= date.month <= 12 then TimeManager.MonthNames[date.month - 1] else "Unknown")
  {
    var name := if 1 <= date.month <= 12 then TimeManager.MonthNames[date.month - 1] else "Unknown";
    var prefix := Text.IntToString(date.day) + ". ";
    var r := TimeManager.FormatGameDate(date, TimeManager.Long);
    assert r == prefix + name + " " + Text.IntToString(date.year);
    assert r[|prefix|..|prefix| + |name|] == name;
    assert Text.OccursAt(r, name, |prefix|);
  }

  /** The two long forms agree exactly when the month is one of the twelve:
      otherwise one says "Unknown" and the other "undefined". */
  lemma LongFormsAgreeOnValidMonths(date: GameDate)
    ensures TimeManager.FormatGameDate(date, TimeManager.Long) == FormatDate(date, Long) <==>
      1 <= date.month <= 12
  {
    if !(1 <= date.month <= 12) {
      var prefix := Text.IntToString(date.day) + ". ";
      var suffix := " " + Text.IntToString(date.year);
      assert TimeManager.FormatGameDate(date, TimeManager.Long) == prefix + "Unknown" + suffix;
      assert FormatDate(date, Long) == prefix + "undefined" + suffix;
    }
  }

  // ---------------------------------------------------------------------------
  // Colours of values and changes

  const Green := "text-green-600"
  const Yellow := "text-yellow-600"
  const Orange := "text-orange-600"
  const Red := "text-red-600"
  const Gray := "text-gray-600"

  /** `getChangeColor`: green for a rise, red for a fall, gray for no change. */
  function GetChangeColor(change: real): (r: string)
    ensures r == Green <==> change > 0.0
    ensures r == Red <==> change < 0.0
    ensures r == Gray <==> change == 0.0
  {
    if change > 0.0 then Green else if change < 0.0 then Red else Gray
  }

  /** A fall is coloured as the mirrored rise. */
  lemma ChangeColorMirror(change: real)
    ensures GetChangeColor(-change) == if change > 0.0 then Red else if change < 0.0 then Green else Gray
  {
  }

  /** A JavaScript quotient: a number, or the infinities and NaN of a division by zero. */
  datatype Ratio = Finite(x: real) | PosInfinity | NegInfinity | NotANumber

  /** `((value - minValue) / (maxValue - minValue)) * 100`. */
  function Percentage(value: real, minValue: real, maxValue: real): (p: Ratio)
    ensures p.Finite? <==> maxValue != minValue
    ensures p.Finite? ==> p.x * (maxValue - minValue) == (value - minValue) * 100.0
  {
    if maxValue != minValue then Finite((value - minValue) / (maxValue - minValue) * 100.0)
    else if value > minValue then PosInfinity
    else if value < minValue then NegInfinity
    else NotANumber
  }

  /** `p >= t`; NaN compares false. */
  predicate AtLeast(p: Ratio, t: real)
  {
    match p
    case Finite(x) => x >= t
    case PosInfinity => true
    case NegInfinity => false
    case NotANumber => false
  }

  /** `p <= t`; NaN compares false. */
  predicate AtMost(p: Ratio, t: real)
  {
    match p
    case Finite(x) => x <= t
    case PosInfinity => false
    case NegInfinity => true
    case NotANumber => false
  }

  /** `getValueColor`: the position of the value in its range, in quarters; green
      for the best quarter. For an inverted variable low values are best. */
  function GetValueColor(value: real, minValue: real, maxValue: real, isInverted: bool): (r: string)
    ensures var p := Percentage(value, minValue, maxValue);
      !isInverted ==>
        (r == Green <==> AtLeast(p, 75.0)) &&
        (r == Yellow <==> AtLeast(p, 50.0) && !AtLeast(p, 75.0)) &&
        (r == Orange <==> AtLeast(p, 25.0) && !AtLeast(p, 50.0)) &&
        (r == Red <==> !AtLeast(p, 25.0))
    ensures var p := Percentage(value, minValue, maxValue);
      isInverted ==>
        (r == Green <==> AtMost(p, 25.0)) &&
        (r == Yellow <==> AtMost(p, 50.0) && !AtMost(p, 25.0)) &&
        (r == Orange <==> AtMost(p, 75.0) && !AtMost(p, 50.0)) &&
        (r == Red <==> !AtMost(p, 75.0))
  {
    var p := Percentage(value, minValue, maxValue);
    if isInverted then
      if AtMost(p, 25.0) then Green
      else if AtMost(p, 50.0) then Yellow
      else if AtMost(p, 75.0) then Orange
      else Red
    else
      if AtLeast(p, 75.0) then Green
      else if AtLeast(p, 50.0) then Yellow
      else if AtLeast(p, 25.0) then Orange
      else Red
  }

  lemma ZeroProduct(x: real, d: real)
    requires x * d == 0.0 && d != 0.0
    ensures x == 0.0
  {
    assert x == (x * d) / d;
  }

  /** The share of the range above a value is one minus the share below it. */
  lemma DivMirror(value: real, lo: real, hi: real)
    requires hi != lo
    ensures (hi - value) / (hi - lo) == 1.0 - (value - lo) / (hi - lo)
  {
    var d := hi - lo;
    var q, q' := (value - lo) / d, (hi - value) / d;
    assert q * d == value - lo;
    assert (1.0 - q) * d == hi - value;
    assert q' * d == hi - value;
    assert (q' - (1.0 - q)) * d == 0.0;
    ZeroProduct(q' - (1.0 - q), d);
  }

  /** Mirroring the value in its range turns its percentage p into 100 - p. */
  lemma PercentageMirror(value: real, minValue: real, maxValue: real)
    requires maxValue != minValue
    ensures Percentage(minValue + maxValue - value, minValue, maxValue).x ==
      100.0 - Percentage(value, minValue, maxValue).x
  {
    DivMirror(value, minValue, maxValue);
    assert minValue + maxValue - value - minValue == maxValue - value;
  }

  /** An inverted variable is coloured as its mirror image in the range would be
      coloured without inversion; this holds for an empty range too. */
  lemma ValueColorMirror(value: real, minValue: real, maxValue: real)
    ensures GetValueColor(value, minValue, maxValue, true) ==
      GetValueColor(minValue + maxValue - value, minValue, maxValue, false)
  {
    if maxValue != minValue {
      PercentageMirror(value, minValue, maxValue);
    }
  }

  // ---------------------------------------------------------------------------
  // Signed amounts

  /** An amount as printed: a sign prefix, the number shown (with its own minus
      when negative) and a suffix. */
  datatype Amount = Amount(sign: string, shown: real, suffix: string)

  /** The value a reader takes from the text: a leading "-" negates the number. */
  function Reading(a: Amount): real
  {
    if a.sign == "-" then -a.shown else a.shown
  }

  function Abs(x: real): (r: real)
    ensures r >= 0.0 && (r == x || r == -x)
  {
    if x < 0.0 then -x else x
  }

  /** `formatCurrency` as written: "-" before a negative amount and "+" otherwise;
      billions print the absolute amount, any other unit the signed amount. */
  function FormatCurrency(amount: real, unit: string): (r: Amount)
    ensures r.sign == (if amount < 0.0 then "-" else "+")
    ensures Text.Contains(unit, "Mrd") ==> r.shown == Abs(amount) && r.suffix == " " + unit
    ensures !Text.Contains(unit, "Mrd") ==> r.shown == amount && r.suffix == " €"
  {
    var sign := if amount < 0.0 then "-" else "+";
    if Text.Contains(unit, "Mrd") then Amount(sign, Abs(amount), " " + unit)
    else Amount(sign, amount, " €")
  }

  /** In billions the text reads back as the amount. */
  lemma CurrencyInBillionsReadsBack(amount: real, unit: string)
    requires Text.Contains(unit, "Mrd")
    ensures Reading(FormatCurrency(amount, unit)) == amount
  {
  }

  /** In any other unit a negative amount gets the "-" prefix and keeps its own
      minus: -1500 in euros prints as "--1.500 €" and reads as +1500. */
  lemma CurrencyDoubleMinus()
    ensures var r := FormatCurrency(-1500.0, "€");
      r.sign == "-" && r.shown < 0.0 && Reading(r) == 1500.0
  {
    assert !Text.Contains("€", "Mrd");
  }

  /** `formatCurrency` with the absolute amount printed in every unit, as the
      billions branch does. */
  function FormatCurrencyCorrected(amount: real, unit: string): (r: Amount)
    ensures r.sign == (if amount < 0.0 then "-" else "+") && r.shown >= 0.0
  {
    var sign := if amount < 0.0 then "-" else "+";
    if Text.Contains(unit, "Mrd") then Amount(sign, Abs(amount), " " + unit)
    else Amount(sign, Abs(amount), " €")
  }

  /** The corrected text reads back as the amount in every unit. */
  lemma CorrectedCurrencyReadsBack(amount: real, unit: string)
    ensures Reading(FormatCurrencyCorrected(amount, unit)) == amount
  {
  }

  /** `formatPercentage`: "+" only when asked for and the value is positive; a
      negative value carries its own minus. */
  function FormatPercentage(value: real, showSign: bool): (r: Amount)
    ensures r.sign == "+" <==> showSign && value > 0.0
    ensures r.sign == "" <==> !(showSign && value > 0.0)
    ensures r.shown == value && r.suffix == "%"
  {
    var sign := if showSign && value != 0.0 then (if value > 0.0 then "+" else "") else "";
    Amount(sign, value, "%")
  }

  /** A percentage always reads back as its value. */
  lemma PercentageReadsBack(value: real, showSign: bool)
    ensures Reading(FormatPercentage(value, showSign)) == value
  {
  }

  // ---------------------------------------------------------------------------
  // Grades

  /** `s` is the text of one of the nine grades. */
  ghost predicate IsGradeName(s: string)
  {
    exists g: Grade :: GradeText(g) == s
  }

  /** The letter a grade belongs to, without its plus. */
  function Letter(g: Grade): char
  {
    match g
    case APlus | A => 'A'
    case BPlus | B => 'B'
    case CPlus | C => 'C'
    case DPlus | D => 'D'
    case F => 'F'
  }

  const GreenBadge := "text-green-600 bg-green-100"
  const BlueBadge := "text-blue-600 bg-blue-100"
  const YellowBadge := "text-yellow-600 bg-yellow-100"
  const OrangeBadge := "text-orange-600 bg-orange-100"
  const RedBadge := "text-red-600 bg-red-100"
  const GrayBadge := "text-gray-600 bg-gray-100"
  const Unrated := "Nicht bewertet"

  /** `getGradeColor`: one badge per letter, gray for anything else. */
  function GetGradeColor(grade: string): (r: string)
    ensures r == GrayBadge <==> !IsGradeName(grade)
  {
    if grade == "A+" || grade == "A" then (assert GradeText(APlus) == "A+" && GradeText(A) == "A"; GreenBadge)
    else if grade == "B+" || grade == "B" then (assert GradeText(BPlus) == "B+" && GradeText(B) == "B"; BlueBadge)
    else if grade == "C+" || grade == "C" then (assert GradeText(CPlus) == "C+" && GradeText(C) == "C"; YellowBadge)
    else if grade == "D+" || grade == "D" then (assert GradeText(DPlus) == "D+" && GradeText(D) == "D"; OrangeBadge)
    else if grade == "F" then (assert GradeText(F) == "F"; RedBadge)
    else GrayBadge
  }

  /** `getGradeDescription`: one text per grade, "Nicht bewertet" for anything else. */
  function GetGradeDescription(grade: string): (r: string)
    ensures r == Unrated <==> !IsGradeName(grade)
  {
    match grade
    case "A+" => assert GradeText(APlus) == grade; "Ausgezeichnete Leistung"
    case "A" => assert GradeText(A) == grade; "Sehr gute Leistung"
    case "B+" => assert GradeText(BPlus) == grade; "Gute Leistung+"
    case "B" => assert GradeText(B) == grade; "Gute Leistung"
    case "C+" => assert GradeText(CPlus) == grade; "Befriedigende Leistung+"
    case "C" => assert GradeText(C) == grade; "Befriedigende Leistung"
    case "D+" => assert GradeText(DPlus) == grade; "Ausreichende Leistung+"
    case "D" => assert GradeText(D) == grade; "Ausreichende Leistung"
    case "F" => assert GradeText(F) == grade; "Ungenügende Leistung"
    case _ => Unrated
  }

  /** The badge of a letter. */
  function LetterBadge(letter: char): string
  {
    match letter
    case 'A' => GreenBadge
    case 'B' => BlueBadge
    case 'C' => YellowBadge
    case 'D' => OrangeBadge
    case 'F' => RedBadge
    case _ => GrayBadge
  }

  lemma BadgesDistinct()
    ensures GreenBadge[5] == 'g' && GreenBadge[7] == 'e' && BlueBadge[5] == 'b' && YellowBadge[5] == 'y'
    ensures OrangeBadge[5] == 'o' && RedBadge[5] == 'r' && GrayBadge[5] == 'g' && GrayBadge[7] == 'a'
  {
  }

  /** A grade's badge is its letter's. */
  lemma GradeColorOfLetter(g: Grade)
    ensures GetGradeColor(GradeText(g)) == LetterBadge(Letter(g))
  {
  }

  /** Two grades share a badge exactly when they share a letter. */
  lemma GradeColorsByLetter(g1: Grade, g2: Grade)
    ensures GetGradeColor(GradeText(g1)) == GetGradeColor(GradeText(g2)) <==> Letter(g1) == Letter(g2)
  {
    GradeColorOfLetter(g1);
    GradeColorOfLetter(g2);
    BadgesDistinct();
  }

  /** Every grade has a description of its own. */
  lemma GradeDescriptionsDistinct(g1: Grade, g2: Grade)
    requires g1 != g2
    ensures GetGradeDescription(GradeText(g1)) != GetGradeDescription(GradeText(g2))
  {
  }
}
