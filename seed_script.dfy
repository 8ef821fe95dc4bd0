/** `supabase/generate-seed.js`: the cell parsers and value maps the seed
    generator applies to spreadsheet rows, and the filter that decides which
    rows are emitted. A cell is text or empty (null), as the sheet reader
    gives it with formatted values and a null default. */
module SeedScript {
  import opened Common
  import opened Seqs
  import opened JsText
  import SFS = SalesFunnelSchema
  import SCS = ServiceContractSchema

  // ---------------------------------------------------------------- parseCurrency

  /** The characters `/[₮$,\s]/g` removes. */
  predicate Decoration(c: char)
  {
    c == '₮' || c == '$' || c == ',' || IsSpace(c)
  }

  function KeepChar(): char -> bool
  {
    c => !Decoration(c)
  }

  /** The text with currency signs, commas and white space removed. */
  function Undecorated(s: string): (r: string)
    ensures forall i :: 0 <= i < |r| ==> !Decoration(r[i])
  {
    Filter(s, KeepChar())
  }

  /** `parseCurrency`: null for an empty cell, else the number at the head of
      the undecorated text, null when there is none. */
  function ParseCurrency(value: Option<string>): Option<real>
  {
    if !TruthyText(value) then None
    else ParseFloat(Trim(Undecorated(value.value)))
  }

  /** Text with no white space is its own trim. */
  lemma TrimNoSpace(s: string)
    requires forall i :: 0 <= i < |s| ==> !IsSpace(s[i])
    ensures Trim(s) == s
  {
    assert TrimStart(s) == s;
    assert TrimEnd(s) == s;
  }

  /** Decoration does not change the amount: a cell reads as the same number
      as its undecorated text. */
  lemma {:induction false} CurrencyIgnoresDecoration(s: string)
    requires Undecorated(s) != []
    ensures ParseCurrency(Some(s)) == ParseCurrency(Some(Undecorated(s)))
  {
    var u := Undecorated(s);
    FilterAll(u, KeepChar());
  }

  /** A cell whose undecorated text is plain digits ("₮1,500,000") reads as
      the number those digits spell. */
  lemma CurrencyOfDigits(s: string)
    requires Undecorated(s) != [] && AllDigits(Undecorated(s))
    ensures ParseCurrency(Some(s)) == Some(DigitsValue(Undecorated(s)) as real)
  {
    var u := Undecorated(s);
    assert s != [];
    TrimNoSpace(u);
    ParseFloatDigits(u);
  }

  // ---------------------------------------------------------------- parsePercentage

  /** `.replace('%', '')`: only the first `%` goes. */
  function DropFirstPercent(s: string): (r: string)
    ensures '%' !in s ==> r == s
    ensures '%' in s ==> |r| == |s| - 1
    decreases |s|
  {
    if s == [] then []
    else if s[0] == '%' then s[1..]
    else [s[0]] + DropFirstPercent(s[1..])
  }

  /** Numbers above 1 are taken as percents, the rest as fractions already. */
  function AsFraction(x: real): real
  {
    if x > 1.0 then x / 100.0 else x
  }

  /** `parsePercentage`. */
  function ParsePercentage(value: Option<string>): Option<real>
  {
    if !TruthyText(value) then None
    else
      match ParseFloat(Trim(DropFirstPercent(value.value)))
      case None => None
      case Some(x) => Some(AsFraction(x))
  }

  /** "n%" reads as n / 100 for n above 1, and as n itself for 0 and 1. */
  lemma PercentOfNat(n: nat)
    ensures ParsePercentage(Some(NatToString(n) + "%")) == Some(if n > 1 then n as real / 100.0 else n as real)
  {
    var d := NatToString(n);
    var s := d + "%";
    DigitsAreNotPercent(d);
    DropPercentAfter(d, "");
    assert d + "%" + "" == s && d + "" == d;
    assert Trim(DropFirstPercent(s)) == d by {
      TrimNoSpace(d);
    }
    ParseFloatNatToString(n);
    assert ParseFloat(Trim(DropFirstPercent(s))) == Some(n as real);
  }

  lemma DigitsAreNotPercent(d: string)
    requires AllDigits(d)
    ensures '%' !in d
    ensures forall i :: 0 <= i < |d| ==> !IsSpace(d[i])
  {
  }

  lemma {:induction false} DropPercentAfter(d: string, rest: string)
    requires '%' !in d
    ensures DropFirstPercent(d + "%" + rest) == d + rest
    decreases |d|
  {
    if d != [] {
      assert (d + "%" + rest)[1..] == d[1..] + "%" + rest;
      DropPercentAfter(d[1..], rest);
      assert d + rest == [d[0]] + (d[1..] + rest);
    } else {
      assert (d + "%" + rest)[1..] == rest;
    }
  }

  /** Readings from 0 to 100 give fractions from 0 to 1. */
  lemma PercentInRange(x: real)
    requires 0.0 <= x <= 100.0
    ensures 0.0 <= AsFraction(x) <= 1.0
    ensures x <= 1.0 ==> AsFraction(x) == x
  {
  }

  // ---------------------------------------------------------------- parseDate

  /** `\w`: an ASCII letter, digit or underscore. */
  predicate IsWordChar(c: char)
  {
    ('a' <= c <= 'z') || ('A' <= c <= 'Z') || ('0' <= c <= '9') || c == '_'
  }

  predicate DigitsAt(s: string, i: nat, n: nat)
  {
    i + n <= |s| && forall j :: i <= j < i + n ==> IsDigit(s[j])
  }

  /** `(\d{k})-(\w{3})-(\d{4})` at index i, with the three groups. */
  function DayMonYearAt(s: string, i: nat, k: nat): Option<(string, string, string)>
  {
    if DigitsAt(s, i, k) && i + k + 9 <= |s| && s[i + k] == '-'
       && IsWordChar(s[i + k + 1]) && IsWordChar(s[i + k + 2]) && IsWordChar(s[i + k + 3])
       && s[i + k + 4] == '-' && DigitsAt(s, i + k + 5, 4)
    then Some((s[i..i + k], s[i + k + 1..i + k + 4], s[i + k + 5..i + k + 9]))
    else None
  }

  /** `/(\d{1,2})-(\w{3})-(\d{4})/` at index i: two day digits tried before one. */
  function DayMonYearMatchAt(s: string, i: nat): Option<(string, string, string)>
  {
    match DayMonYearAt(s, i, 2)
    case Some(g) => Some(g)
    case None => DayMonYearAt(s, i, 1)
  }

  /** The leftmost match at index i or after. */
  function FirstDayMonYear(s: string, i: nat): Option<(string, string, string)>
    decreases |s| - i
  {
    if i >= |s| then None
    else
      match DayMonYearMatchAt(s, i)
      case Some(g) => Some(g)
      case None => FirstDayMonYear(s, i + 1)
  }

  /** `months[abbr]`. */
  function MonthNumber(abbr: string): (r: Option<string>)
    ensures r.Some? ==> |r.value| == 2 && AllDigits(r.value)
    ensures r.Some? ==> |abbr| == 3 && IsWordChar(abbr[0]) && IsWordChar(abbr[1]) && IsWordChar(abbr[2])
  {
    if abbr == "Jan" then Some("01") else if abbr == "Feb" then Some("02")
    else if abbr == "Mar" then Some("03") else if abbr == "Apr" then Some("04")
    else if abbr == "May" then Some("05") else if abbr == "Jun" then Some("06")
    else if abbr == "Jul" then Some("07") else if abbr == "Aug" then Some("08")
    else if abbr == "Sep" then Some("09") else if abbr == "Oct" then Some("10")
    else if abbr == "Nov" then Some("11") else if abbr == "Dec" then Some("12")
    else None
  }

  /** `/(\d{4})-(\d{2})-(\d{2})/` at index i. */
  predicate IsoDateAt(s: string, i: nat)
  {
    DigitsAt(s, i, 4) && i + 10 <= |s| && s[i + 4] == '-' && DigitsAt(s, i + 5, 2)
    && s[i + 7] == '-' && DigitsAt(s, i + 8, 2)
  }

  predicate HasIsoDate(s: string)
  {
    exists i: nat :: i < |s| && IsoDateAt(s, i)
  }

  /** `parseDate`: `fallback` is what `new Date(value)` gives as a
      `YYYY-MM-DD` date, None when it is an invalid date. */
  function ParseDate(value: Option<string>, fallback: Option<string>): Option<string>
  {
    if !TruthyText(value) then None
    else
      var d := Trim(value.value);
      var m := FirstDayMonYear(d, 0);
      if m.Some? && MonthNumber(m.value.1).Some? then
        Some(m.value.2 + "-" + MonthNumber(m.value.1).value + "-" + PadStart2(m.value.0))
      else if HasIsoDate(d) then Some(d)
      else fallback
  }

  /** Exactly `YYYY-MM-DD`. */
  predicate IsIsoDate(s: string)
  {
    |s| == 10 && IsoDateAt(s, 0)
  }

  /** `D-Mon-YYYY` and `DD-Mon-YYYY` with a known month become `YYYY-MM-DD`,
      the day padded to two digits. */
  lemma ParseDateDayMonYear(day: string, mon: string, year: string, fallback: Option<string>)
    requires 1 <= |day| <= 2 && AllDigits(day) && MonthNumber(mon).Some?
    requires |year| == 4 && AllDigits(year)
    ensures var r := ParseDate(Some(day + "-" + mon + "-" + year), fallback);
            && r == Some(year + "-" + MonthNumber(mon).value + "-" + PadStart2(day))
            && IsIsoDate(r.value)
  {
    var s := day + "-" + mon + "-" + year;
    assert IsDigit(s[0]) && IsDigit(s[|s| - 1]);
    TrimNoSpaceEnds(s);
    DayMonYearFound(day, mon, year);
    PaddedDay(day);
    IsoShape(year, MonthNumber(mon).value, PadStart2(day));
  }

  lemma DayMonYearFound(day: string, mon: string, year: string)
    requires 1 <= |day| <= 2 && AllDigits(day) && MonthNumber(mon).Some?
    requires |year| == 4 && AllDigits(year)
    ensures FirstDayMonYear(day + "-" + mon + "-" + year, 0) == Some((day, mon, year))
  {
    var s := day + "-" + mon + "-" + year;
    var k := |day|;
    assert s[k] == '-' && s[k + 4] == '-';
    assert s[k + 1] == mon[0] && s[k + 2] == mon[1] && s[k + 3] == mon[2];
    assert DigitsAt(s, 0, k) && DigitsAt(s, k + 5, 4);
    assert s[..k] == day && s[k + 1..k + 4] == mon && s[k + 5..k + 9] == year;
    if k == 1 {
      assert !IsDigit(s[1]);
      assert DayMonYearAt(s, 0, 2) == None;
    }
  }

  lemma PaddedDay(day: string)
    requires 1 <= |day| <= 2 && AllDigits(day)
    ensures |PadStart2(day)| == 2 && AllDigits(PadStart2(day))
  {
    if |day| == 1 {
      assert PadStart2(day) == "0" + day;
    }
  }

  lemma IsoShape(year: string, mm: string, dd: string)
    requires |year| == 4 && AllDigits(year) && |mm| == 2 && AllDigits(mm) && |dd| == 2 && AllDigits(dd)
    ensures IsIsoDate(year + "-" + mm + "-" + dd)
  {
    var r := year + "-" + mm + "-" + dd;
    assert r[..4] == year && r[5..7] == mm && r[8..] == dd;
    assert DigitsAt(r, 0, 4) && DigitsAt(r, 5, 2) && DigitsAt(r, 8, 2);
  }

  /** Text that starts and ends with a non-space is its own trim. */
  lemma TrimNoSpaceEnds(s: string)
    requires s != [] && !IsSpace(s[0]) && !IsSpace(s[|s| - 1])
    ensures Trim(s) == s
  {
    assert TrimStart(s) == s;
    assert TrimEnd(s) == s;
  }

  lemma {:induction false} NoDayMonYearInIso(s: string, i: nat)
    requires IsIsoDate(s)
    ensures FirstDayMonYear(s, i) == None
    decreases |s| - i
  {
    if i < |s| {
      forall k: nat | k == 1 || k == 2 ensures DayMonYearAt(s, i, k) == None {
        if i + k + 9 <= |s| {
          assert IsDigit(s[i + k]);
        }
      }
      NoDayMonYearInIso(s, i + 1);
    }
  }

  /** A `YYYY-MM-DD` cell passes through unchanged: the rewrite's output is a
      fixed point of `parseDate`. */
  lemma ParseDateIso(s: string, fallback: Option<string>)
    requires IsIsoDate(s)
    ensures ParseDate(Some(s), fallback) == Some(s)
  {
    assert IsDigit(s[0]) && IsDigit(s[9]);
    TrimNoSpaceEnds(s);
    NoDayMonYearInIso(s, 0);
    assert IsoDateAt(s, 0);
  }

  /** An empty cell has no date, whatever `new Date` would say. */
  lemma ParseDateEmpty(fallback: Option<string>)
    ensures ParseDate(None, fallback) == None && ParseDate(Some(""), fallback) == None
  {
  }

  // ---------------------------------------------------------------- mapStage, mapStatus

  /** The script's `validStages`. */
  const SalesStages: seq<string> := ["Closed", "Won", "Hot", "Warm", "Cold", "Lost"]
  const ContractStages: seq<string> := ["Closed", "Hot", "Warm"]

  /** `mapStage(stage, isServiceContract)`. */
  function MapStage(stage: Option<string>, isServiceContract: bool): (r: string)
    ensures r in (if isServiceContract then ContractStages else SalesStages)
  {
    var valid := if isServiceContract then ContractStages else SalesStages;
    if stage.Some? && stage.value in valid then stage.value
    else if isServiceContract then "Warm" else "Cold"
  }

  /** The stages the script emits are the ones the forms accept, and a mapped
      stage maps to itself again. */
  lemma MapStageMeaning(stage: Option<string>, isServiceContract: bool)
    ensures !isServiceContract ==> MapStage(stage, false) in SFS.StageEnum
    ensures isServiceContract ==> MapStage(stage, true) in SCS.StageEnum
    ensures stage.Some? && stage.value in (if isServiceContract then SCS.StageEnum else SFS.StageEnum) ==>
              MapStage(stage, isServiceContract) == stage.value
    ensures MapStage(Some(MapStage(stage, isServiceContract)), isServiceContract) == MapStage(stage, isServiceContract)
  {
    assert SalesStages == SFS.StageEnum && ContractStages == SCS.StageEnum;
  }

  /** `statusMap[status] || 'Not started'`. */
  function MapStatus(status: Option<string>): (r: string)
  {
    match status
    case Some("Not started") => "Not started"
    case Some("In progress") => "In progress"
    case Some("Complate") => "Complate"
    case Some("Complete") => "Complate"
    case Some("Completed") => "Complate"
    case _ => "Not started"
  }

  /** Statuses land in the forms' status list; both spellings of "complete"
      become the stored 'Complate'; a mapped status maps to itself. */
  lemma MapStatusMeaning(status: Option<string>)
    ensures MapStatus(status) in SFS.StatusEnum && MapStatus(status) in SCS.StatusEnum
    ensures MapStatus(Some(MapStatus(status))) == MapStatus(status)
    ensures status == Some("Complete") || status == Some("Completed") ==> MapStatus(status) == "Complate"
    ensures status.Some? && status.value in SFS.StatusEnum ==> MapStatus(status) == status.value
  {
  }

  // ---------------------------------------------------------------- the row filter

  /** The two cells the filter reads. */
  datatype SheetRow = SheetRow(clientName: Option<string>, stage: Option<string>)

  /** The header text that reappears as a row of the sheet. */
  const ClientHeader: string := "Харилцагч"

  /** A row is emitted when it names a client and a stage and is not the header. */
  function Emitted(): SheetRow -> bool
  {
    (row: SheetRow) => TruthyText(row.clientName) && TruthyText(row.stage) && row.clientName.value != ClientHeader
  }

  function ValidRows(rows: seq<SheetRow>): seq<SheetRow>
  {
    Filter(rows, Emitted())
  }

  /** A row is emitted exactly when it has a client name other than the header
      and a stage, and the rows keep their order. */
  lemma ValidRowsMeaning(rows: seq<SheetRow>)
    ensures forall r :: r in ValidRows(rows) <==>
              r in rows && r.clientName.Some? && r.clientName.value != "" && r.clientName.value != ClientHeader
              && r.stage.Some? && r.stage.value != ""
    ensures |ValidRows(rows)| <= |rows|
  {
    FilterMembers(rows, Emitted());
  }
}
