/** Calendar days. Parsing date text into a `Date` is left to the platform; the
    model receives the year, month and day that `getFullYear()`,
    `getMonth() + 1` and `getDate()` report, or None for a missing or
    unparseable date. */
module Calendar {
  import opened Common
  import opened JsText

  datatype Date = Date(year: int, month: int, day: int)

  /** What a JavaScript `Date` can report: a month 1..12 and a day 1..31. */
  predicate Valid(d: Date)
  {
    1 <= d.month <= 12 && 1 <= d.day <= 31
  }

  /** Chronological order of days; the database compares date columns this way. */
  predicate NotAfter(a: Date, b: Date)
  {
    a.year < b.year
    || (a.year == b.year && a.month < b.month)
    || (a.year == b.year && a.month == b.month && a.day <= b.day)
  }

  lemma NotAfterTotal(a: Date, b: Date)
    ensures NotAfter(a, b) || NotAfter(b, a)
    ensures NotAfter(a, b) && NotAfter(b, a) ==> a == b
  {
  }

  lemma NotAfterTransitive(a: Date, b: Date, c: Date)
    requires NotAfter(a, b) && NotAfter(b, c)
    ensures NotAfter(a, c)
  {
  }

  /** The `YYYY-MM-DD` text of a day (ISO 8601 calendar date, extended form). */
  function IsoDate(d: Date): (r: string)
    requires Valid(d) && 1000 <= d.year <= 9999
    ensures |r| == 10 && r[4] == '-' && r[7] == '-'
    ensures AllDigits(r[..4]) && DigitsValue(r[..4]) == d.year
    ensures AllDigits(r[5..7]) && DigitsValue(r[5..7]) == d.month
    ensures AllDigits(r[8..]) && DigitsValue(r[8..]) == d.day
  {
    var y := NatToString(d.year);
    assert |y| == 4 by { NatToStringLength4(d.year); }
    var m := Pad2(d.month);
    var dd := Pad2(d.day);
    assert |m| == 2 && |dd| == 2;
    DateTextParts(y, m, dd);
    y + "-" + m + "-" + dd
  }

  /** Where the parts of `YYYY-MM-DD` text sit. */
  lemma DateTextParts(y: string, m: string, dd: string)
    requires |y| == 4 && |m| == 2 && |dd| == 2
    ensures var r := y + "-" + m + "-" + dd;
            |r| == 10 && r[4] == '-' && r[7] == '-' && r[..4] == y && r[5..7] == m && r[8..] == dd
  {
    var r := y + "-" + m + "-" + dd;
    assert r == y + ("-" + m + "-" + dd);
    assert r[..4] == y;
    assert r[5..7] == m;
    assert r[8..] == dd;
  }

  /** Four-digit numbers print as four digits. */
  lemma NatToStringLength4(n: nat)
    requires 1000 <= n <= 9999
    ensures |NatToString(n)| == 4
  {
    var a := n / 10;
    var b := a / 10;
    var c := b / 10;
    assert NatToString(c) == [DigitChar(c)];
    assert NatToString(b) == NatToString(c) + [DigitChar(b % 10)];
    assert NatToString(a) == NatToString(b) + [DigitChar(a % 10)];
    assert NatToString(n) == NatToString(a) + [DigitChar(n % 10)];
  }

  /** Reads `YYYY-MM-DD` text back into a day; None for anything else. */
  function ParseIsoDate(s: string): (r: Option<Date>)
    ensures r.Some? ==> |s| == 10
  {
    if |s| == 10 && s[4] == '-' && s[7] == '-'
       && AllDigits(s[..4]) && AllDigits(s[5..7]) && AllDigits(s[8..])
    then Some(Date(DigitsValue(s[..4]), DigitsValue(s[5..7]), DigitsValue(s[8..])))
    else None
  }

  /** Printing a day and reading it back gives the same day. */
  lemma IsoDateRoundTrip(d: Date)
    requires Valid(d) && 1000 <= d.year <= 9999
    ensures ParseIsoDate(IsoDate(d)) == Some(d)
  {
  }
}
