/** The Mongolian display helpers of `src/lib/utils.ts`: long and short date
    text, the relative-time phrase and the currency scale. */
module Utils {
  import opened Common
  import opened JsText
  import opened Calendar

  /** The month names, indexed by the 0-based month `getMonth()` returns. */
  const MongolianMonths: seq<string> := [
    "1-р сар", "2-р сар", "3-р сар", "4-р сар",
    "5-р сар", "6-р сар", "7-р сар", "8-р сар",
    "9-р сар", "10-р сар", "11-р сар", "12-р сар"
  ]

  /** Entry i of the table names month i + 1. */
  lemma MonthNamesNumbered()
    ensures |MongolianMonths| == 12
    ensures forall i :: 0 <= i < 12 ==> MongolianMonths[i] == NatToString(i + 1) + "-р сар"
  {
    assert NatToString(10) == "10";
    assert NatToString(11) == "11";
    assert NatToString(12) == "12";
  }

  /** `formatDateMn`: `<year> оны <month name> <day>`, or '-' without a date. */
  function FormatDateMn(date: Option<Date>): (r: string)
    requires date.Some? ==> Valid(date.value)
    ensures date.None? ==> r == "-"
    ensures date.Some? ==>
              r == IntToString(date.value.year) + " оны " + NatToString(date.value.month) + "-р сар "
                   + NatToString(date.value.day)
  {
    match date
    case None => "-"
    case Some(d) =>
      MonthNamesNumbered();
      IntToString(d.year) + " оны " + MongolianMonths[d.month - 1] + " " + IntToString(d.day)
  }

  /** `formatDateShortMn`: `YYYY.MM.DD` with month and day padded to two digits,
      or '-' without a date. */
  function FormatDateShortMn(date: Option<Date>): (r: string)
    requires date.Some? ==> Valid(date.value)
    ensures date.None? ==> r == "-"
  {
    match date
    case None => "-"
    case Some(d) => IntToString(d.year) + "." + Pad2(d.month) + "." + Pad2(d.day)
  }

  /** Reads `YYYY.MM.DD` text (any number of year digits) back into a day. */
  function ParseShortMn(s: string): Option<Date>
  {
    if |s| >= 7 && s[|s| - 6] == '.' && s[|s| - 3] == '.'
       && AllDigits(s[..|s| - 6]) && AllDigits(s[|s| - 5..|s| - 3]) && AllDigits(s[|s| - 2..])
    then Some(Date(DigitsValue(s[..|s| - 6]), DigitsValue(s[|s| - 5..|s| - 3]), DigitsValue(s[|s| - 2..])))
    else None
  }

  /** The short date text names its day exactly: it reads back as the same day,
      and never as the '-' shown for a missing date. */
  lemma {:induction false} FormatDateShortMnRoundTrip(d: Date)
    requires Valid(d) && d.year >= 0
    ensures ParseShortMn(FormatDateShortMn(Some(d))) == Some(d)
    ensures ParseShortMn(FormatDateShortMn(None)) == None
  {
    var y := NatToString(d.year);
    var m := Pad2(d.month);
    var dd := Pad2(d.day);
    var s := y + "." + m + "." + dd;
    assert FormatDateShortMn(Some(d)) == s;
    assert |s| == |y| + 6;
    assert s[..|s| - 6] == y;
    assert s[|s| - 5..|s| - 3] == m;
    assert s[|s| - 2..] == dd;
  }

  /** How long ago a moment was, as `getRelativeTimeMn` words it. */
  datatype Ago =
    | NoDate
    | Today
    | Yesterday
    | DaysAgo(days: int)
    | WeeksAgo(weeks: int)
    | MonthsAgo(months: int)
    | YearsAgo(years: int)

  const DayMs: int := 1000 * 60 * 60 * 24

  /** The bucket of `getRelativeTimeMn`, given the milliseconds from the date to
      now (None for a missing or unparseable date). The day difference is the
      floor of elapsed / one day. */
  function RelativeTime(elapsedMs: Option<int>): (a: Ago)
    ensures a.NoDate? <==> elapsedMs.None?
  {
    match elapsedMs
    case None => NoDate
    case Some(ms) =>
      var d := ms / DayMs;
      if d == 0 then Today
      else if d == 1 then Yesterday
      else if d < 7 then DaysAgo(d)
      else if d < 30 then WeeksAgo(d / 7)
      else if d < 365 then MonthsAgo(d / 30)
      else YearsAgo(d / 365)
  }

  /** The phrase for each bucket. */
  function AgoText(a: Ago): string
  {
    match a
    case NoDate => "-"
    case Today => "Өнөөдөр"
    case Yesterday => "Өчигдөр"
    case DaysAgo(n) => IntToString(n) + " өдрийн өмнө"
    case WeeksAgo(n) => IntToString(n) + " долоо хоногийн өмнө"
    case MonthsAgo(n) => IntToString(n) + " сарын өмнө"
    case YearsAgo(n) => IntToString(n) + " жилийн өмнө"
  }

  /** `getRelativeTimeMn`. */
  function GetRelativeTimeMn(elapsedMs: Option<int>): string
  {
    AgoText(RelativeTime(elapsedMs))
  }

  /** Every bucket rounds the elapsed whole days down to its unit: the count it
      reports, times its unit, is at most the elapsed days and one more unit
      exceeds them; weeks stay within 1..4 and months within 1..12. */
  lemma RelativeTimeBrackets(ms: int)
    ensures var d := ms / DayMs;
            match RelativeTime(Some(ms))
            case NoDate => false
            case Today => d == 0
            case Yesterday => d == 1
            case DaysAgo(n) => n == d && d < 7 && d != 0 && d != 1
            case WeeksAgo(n) => 7 * n <= d < 7 * n + 7 && 1 <= n <= 4
            case MonthsAgo(n) => 30 * n <= d < 30 * n + 30 && 1 <= n <= 12
            case YearsAgo(n) => 365 * n <= d < 365 * n + 365 && n >= 1
  {
  }

  /** A moment in the future is worded as a negative number of days ago. */
  lemma FutureDateReadsAsNegativeDays(ms: int)
    requires -6 * DayMs <= ms < 0
    ensures RelativeTime(Some(ms)).DaysAgo? && RelativeTime(Some(ms)).days < 0
    ensures GetRelativeTimeMn(Some(ms))[0] == '-'
  {
  }

  /** The scale `formatCurrencyMn` writes an amount in, with the amount in that unit. */
  datatype Currency =
    | NoAmount
    | Billions(billions: real)
    | Millions(millions: real)
    | Thousands(thousands: real)
    | Tugriks(tugriks: int)

  /** `formatCurrencyMn`'s choice of unit (the one-decimal rendering of the
      scaled amount is the platform's `toFixed`). */
  function CurrencyScale(value: Option<int>): (c: Currency)
    ensures c.NoAmount? <==> value.None?
    ensures c.Billions? ==> c.billions >= 1.0 && c.billions * 1000000000.0 == value.value as real
    ensures c.Millions? ==> 1.0 <= c.millions < 1000.0 && c.millions * 1000000.0 == value.value as real
    ensures c.Thousands? ==> 1.0 <= c.thousands < 1000.0 && c.thousands * 1000.0 == value.value as real
    ensures c.Tugriks? ==> c.tugriks == value.value < 1000
  {
    match value
    case None => NoAmount
    case Some(v) =>
      if v >= 1000000000 then Billions(v as real / 1000000000.0)
      else if v >= 1000000 then Millions(v as real / 1000000.0)
      else if v >= 1000 then Thousands(v as real / 1000.0)
      else Tugriks(v)
  }

  /** The word after the scaled amount. */
  function CurrencySuffix(c: Currency): string
  {
    match c
    case NoAmount => "-"
    case Billions(_) => " тэрбум₮"
    case Millions(_) => " сая₮"
    case Thousands(_) => " мянга₮"
    case Tugriks(_) => "₮"
  }

  function ScaleRank(c: Currency): nat
  {
    match c
    case NoAmount => 0
    case Tugriks(_) => 1
    case Thousands(_) => 2
    case Millions(_) => 3
    case Billions(_) => 4
  }

  /** A larger amount never gets a smaller unit. */
  lemma CurrencyScaleMonotone(a: int, b: int)
    requires a <= b
    ensures ScaleRank(CurrencyScale(Some(a))) <= ScaleRank(CurrencyScale(Some(b)))
  {
  }
}
