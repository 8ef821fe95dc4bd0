/** `supabase/parse-excel.js`: the earlier import helpers, which read cells
    with `parseFloat` directly and map stages and statuses through lookup
    tables. Its `escapeSql` is the one of `SqlText`. */
module ExcelParse {
  import opened Common
  import opened JsText
  import Seqs
  import Seed = SeedScript

  /** `parseNumber`: null for null, undefined and the empty string, else
      `parseFloat` of the text (null for NaN). */
  function ParseNumber(value: Option<string>): Option<real>
  {
    if value.None? || value.value == "" then None else ParseFloat(value.value)
  }

  /** `stageMap[stage] || 'Cold'`. */
  function MapStage(stage: Option<string>): (r: string)
  {
    match stage
    case Some("Closed") => "Closed"
    case Some("Won") => "Won"
    case Some("Hot") => "Hot"
    case Some("Warm") => "Warm"
    case Some("Cold") => "Cold"
    case Some("Lost") => "Lost"
    case _ => "Cold"
  }

  /** `statusMap[status] || 'Not started'`, a table without 'Completed'. */
  function MapStatus(status: Option<string>): (r: string)
  {
    match status
    case Some("Not started") => "Not started"
    case Some("In progress") => "In progress"
    case Some("Complate") => "Complate"
    case Some("Complete") => "Complate"
    case _ => "Not started"
  }

  /** Plain digits read as their value, as the seed generator's currency parser
      reads them. */
  lemma ParseNumberDigits(s: string)
    requires s != [] && AllDigits(s)
    ensures ParseNumber(Some(s)) == Some(DigitsValue(s) as real)
    ensures ParseNumber(Some(s)) == Seed.ParseCurrency(Some(s))
  {
    ParseFloatDigits(s);
    var u := Seed.Undecorated(s);
    assert forall i :: 0 <= i < |s| ==> !Seed.Decoration(s[i]) by {
      forall i | 0 <= i < |s| ensures !Seed.Decoration(s[i]) {
        assert IsDigit(s[i]);
      }
    }
    Seqs.FilterAll(s, Seed.KeepChar());
    Seed.CurrencyOfDigits(s);
  }

  /** Unlike the currency parser, `parseFloat` stops at a grouping comma. */
  lemma ParseNumberStopsAtComma()
    ensures ParseNumber(Some("1,500")) == Some(1.0)
  {
    var s := "1,500";
    assert TrimStart(s) == s;
    assert LeadingDigits(s) == "1" by {
      assert LeadingDigits(s[1..]) == [];
    }
    assert DigitsValue("1") == 1;
  }

  /** Empty cells read as null. */
  lemma ParseNumberEmpty()
    ensures ParseNumber(None) == None && ParseNumber(Some("")) == None
  {
  }

  /** The stage table maps exactly like the seed generator's list for sales. */
  lemma MapStageAgrees(stage: Option<string>)
    ensures MapStage(stage) == Seed.MapStage(stage, false)
  {
  }

  /** The status table agrees with the seed generator's except on 'Completed',
      which it does not know and so maps to 'Not started'. */
  lemma MapStatusAgrees(status: Option<string>)
    ensures status != Some("Completed") ==> MapStatus(status) == Seed.MapStatus(status)
    ensures MapStatus(Some("Completed")) == "Not started" && Seed.MapStatus(Some("Completed")) == "Complate"
  {
  }
}
