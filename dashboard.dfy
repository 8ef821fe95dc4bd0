/** `src/lib/actions/dashboard.ts`: the figures of the dashboard and the
    reports page, aggregated from the `sales_funnel`, `settings` and
    `service_contracts` tables. Each getter receives the rows of the tables
    it queries (in the query's order) and whether each query failed, and
    applies the query's own filters (team, stage, date) to those rows; a
    failed query is logged and answered with an empty result. */
module Dashboard {
  import opened Common
  import opened Seqs
  import opened Groups
  import opened Calendar
  import opened JsText
  import opened Ranking
  import SFS = SalesFunnelSchema
  import SCS = ServiceContractSchema
  import SF = SalesFunnel
  import SC = ServiceContracts
  import ST = Settings

  type Opportunity = SF.Opportunity
  type Contract = SC.Contract

  /** `item.price || 0`. */
  function PriceOf(o: Opportunity): int
  {
    OrZero(o.price)
  }

  /** `item.team_member || 'Other'`. */
  function TeamOf(o: Opportunity): string
  {
    TextOr(o.teamMember, "Other")
  }

  /** The price of a row of the given stage, 0 for a row of any other stage. */
  function PriceIn(stage: string): Opportunity -> int
  {
    (o: Opportunity) => if o.stage == stage then PriceOf(o) else 0
  }

  /** Summing the prices of the rows of a stage is summing the prices of the
      rows the stage selects. */
  lemma PriceInStage(rows: seq<Opportunity>, stage: string)
    ensures SumBy(rows, PriceIn(stage)) == SumBy(Filter(rows, KeyIs(SF.StageOf, stage)), PriceOf)
  {
    SumByMasked(rows, KeyIs(SF.StageOf, stage), PriceOf, PriceIn(stage));
  }

  // ---------------------------------------------------------------- getDashboardMetrics

  /** A `{ count, value }` entry of the breakdowns by stage and by team. */
  datatype Tally = Tally(count: int, value: int)

  function CountOf(t: Tally): int
  {
    t.count
  }

  function ValueOf(t: Tally): int
  {
    t.value
  }

  /** `d.count++; d.value += price`. */
  function Tick(t: Tally, o: Opportunity): Tally
  {
    Tally(t.count + 1, t.value + PriceOf(o))
  }

  function One(o: Opportunity): int
  {
    1
  }

  datatype Metrics = Metrics(
    totalOpportunities: int,
    totalValue: int,
    closedValue: int,
    wonValue: int,
    hotValue: int,
    lostValue: int,
    byStage: seq<(string, Tally)>,
    byTeam: seq<(string, Tally)>)

  const EmptyMetrics := Metrics(0, 0, 0, 0, 0, 0, [], [])

  /** The metrics of a list of opportunities: the count, the total price, the
      price of each of four stages, and the count and price per stage and per
      team, each in order of first appearance. */
  function MetricsOf(rows: seq<Opportunity>): Metrics
  {
    Metrics(|rows|, SumBy(rows, PriceOf),
            SumBy(rows, PriceIn("Closed")), SumBy(rows, PriceIn("Won")),
            SumBy(rows, PriceIn("Hot")), SumBy(rows, PriceIn("Lost")),
            GroupBy(rows, SF.StageOf, Tally(0, 0), Tick), GroupBy(rows, TeamOf, Tally(0, 0), Tick))
  }

  /** `getDashboardMetrics`: one pass over the opportunities. */
  method GetDashboardMetrics(rows: seq<Opportunity>, failed: bool) returns (m: Metrics)
    ensures failed ==> m == EmptyMetrics
    ensures !failed ==> m == MetricsOf(rows)
  {
    if failed {
      return EmptyMetrics;
    }
    m := Metrics(|rows|, 0, 0, 0, 0, 0, [], []);
    var stageMap: seq<(string, Tally)> := [];
    var teamMap: seq<(string, Tally)> := [];
    var i := 0;
    while i < |rows|
      invariant 0 <= i <= |rows|
      invariant m == Metrics(|rows|, SumBy(rows[..i], PriceOf),
                             SumBy(rows[..i], PriceIn("Closed")), SumBy(rows[..i], PriceIn("Won")),
                             SumBy(rows[..i], PriceIn("Hot")), SumBy(rows[..i], PriceIn("Lost")), [], [])
      invariant stageMap == GroupBy(rows[..i], SF.StageOf, Tally(0, 0), Tick)
      invariant teamMap == GroupBy(rows[..i], TeamOf, Tally(0, 0), Tick)
    {
      var item := rows[i];
      var price := OrZero(item.price);
      assert rows[..i + 1][..i] == rows[..i];
      m := m.(totalValue := m.totalValue + price);
      if item.stage == "Closed" {
        m := m.(closedValue := m.closedValue + price);
      }
      if item.stage == "Won" {
        m := m.(wonValue := m.wonValue + price);
      }
      if item.stage == "Hot" {
        m := m.(hotValue := m.hotValue + price);
      }
      if item.stage == "Lost" {
        m := m.(lostValue := m.lostValue + price);
      }
      stageMap := GroupStep(stageMap, SF.StageOf, Tally(0, 0), Tick, item);
      teamMap := GroupStep(teamMap, TeamOf, Tally(0, 0), Tick, item);
      i := i + 1;
    }
    assert rows[..i] == rows;
    m := m.(byStage := stageMap, byTeam := teamMap);
  }

  /** The entry of a key in a breakdown counts and sums exactly the rows of that
      key; a key no row carries has no entry. */
  lemma TallyOf(rows: seq<Opportunity>, key: Opportunity -> string, k: string)
    ensures var sel := Filter(rows, KeyIs(key, k));
            Lookup(GroupBy(rows, key, Tally(0, 0), Tick), k) ==
              if sel == [] then None else Some(Tally(|sel|, SumBy(sel, PriceOf)))
  {
    var sel := Filter(rows, KeyIs(key, k));
    GroupByLookup(rows, key, Tally(0, 0), Tick, k);
    FoldProjection(sel, Tally(0, 0), Tick, CountOf, One);
    FoldProjection(sel, Tally(0, 0), Tick, ValueOf, PriceOf);
    SumByOnes(sel, One);
  }

  /** The breakdowns list each stage and each team once, cover every row, and
      add up to the totals; the value of each of the four named stages is the
      value of that stage's entry (0 when it has none). */
  lemma MetricsConsistent(rows: seq<Opportunity>)
    ensures var m := MetricsOf(rows);
            && Distinct(Keys(m.byStage)) && Distinct(Keys(m.byTeam))
            && (forall i :: 0 <= i < |rows| ==> rows[i].stage in Keys(m.byStage) && TeamOf(rows[i]) in Keys(m.byTeam))
            && SumBy(m.byStage, Weigh(CountOf)) == m.totalOpportunities
            && SumBy(m.byTeam, Weigh(CountOf)) == m.totalOpportunities
            && SumBy(m.byStage, Weigh(ValueOf)) == m.totalValue
            && SumBy(m.byTeam, Weigh(ValueOf)) == m.totalValue
  {
    var m := MetricsOf(rows);
    GroupByKeys(rows, SF.StageOf, Tally(0, 0), Tick);
    GroupByKeys(rows, TeamOf, Tally(0, 0), Tick);
    GroupBySum(rows, SF.StageOf, Tally(0, 0), Tick, CountOf, One);
    GroupBySum(rows, TeamOf, Tally(0, 0), Tick, CountOf, One);
    GroupBySum(rows, SF.StageOf, Tally(0, 0), Tick, ValueOf, PriceOf);
    GroupBySum(rows, TeamOf, Tally(0, 0), Tick, ValueOf, PriceOf);
    SumByOnes(rows, One);
  }

  /** The closed, won, hot and lost values agree with the stage breakdown. */
  lemma StageValues(rows: seq<Opportunity>, stage: string)
    requires stage in ["Closed", "Won", "Hot", "Lost"]
    ensures var m := MetricsOf(rows);
            var v := if stage == "Closed" then m.closedValue else if stage == "Won" then m.wonValue
                     else if stage == "Hot" then m.hotValue else m.lostValue;
            && (Lookup(m.byStage, stage).Some? ==> v == Lookup(m.byStage, stage).value.value)
            && (Lookup(m.byStage, stage).None? ==> v == 0)
  {
    PriceInStage(rows, stage);
    TallyOf(rows, SF.StageOf, stage);
  }

  // ---------------------------------------------------------------- getTeamTargets

  /** The rows the settings query selects: sales-funnel settings with a team. */
  predicate SalesTeamRow(s: ST.Setting)
  {
    s.settingType == "sales_funnel" && s.teamName.Some?
  }

  /** `s.team_name && s.target_2026`: a non-empty team and a non-zero target. */
  predicate HasTarget(s: ST.Setting)
  {
    TruthyText(s.teamName) && Truthy(s.target2026)
  }

  /** The rows the sales query selects: stage Closed or Won. */
  predicate ClosedOrWon(o: Opportunity)
  {
    o.stage == "Closed" || o.stage == "Won"
  }

  /** `actualMap[team] += item.price || 0`. */
  function AddPrice(v: int, o: Opportunity): int
  {
    v + PriceOf(o)
  }

  /** `targetMap`: each team's target, the last assignment winning. */
  function TargetMap(settings: seq<ST.Setting>): seq<(string, int)>
  {
    Assigned(Filter(Filter(settings, SalesTeamRow), HasTarget), ST.TeamOf, ST.TargetOf)
  }

  /** `actualMap`: each team's closed and won sales. */
  function ActualMap(sales: seq<Opportunity>): seq<(string, int)>
  {
    GroupBy(Filter(sales, ClosedOrWon), TeamOf, 0, AddPrice)
  }

  /** `d[k] || 0` on a dictionary of numbers. */
  function ValueOr0(e: seq<(string, int)>, k: string): int
  {
    if Lookup(e, k).Some? then Lookup(e, k).value else 0
  }

  /** A share of a positive whole is at most the whole exactly when the part is. */
  lemma ShareBounds(p: real, w: real)
    requires w > 0.0
    ensures 0.0 <= p <= w ==> 0.0 <= p / w * 100.0 <= 100.0
    ensures p == w ==> p / w * 100.0 == 100.0
  {
    var q := p / w;
    assert q * w == p;
  }

  /** `target > 0 ? Math.round((part / whole) * 100) : 0`. */
  function Percentage(part: int, whole: int): (p: int)
    ensures whole <= 0 ==> p == 0
    ensures whole > 0 ==> p as real - 0.5 <= part as real / whole as real * 100.0 < p as real + 0.5
    ensures whole > 0 && 0 <= part <= whole ==> 0 <= p <= 100
    ensures whole > 0 && part == whole ==> p == 100
  {
    if whole > 0 then
      var x := part as real / whole as real * 100.0;
      ShareBounds(part as real, whole as real);
      Round(x)
    else 0
  }

  datatype TeamTarget = TeamTarget(team: string, target: int, actual: int, percentage: int)

  /** The report line of a team. */
  function TargetLine(team: string, targets: seq<(string, int)>, actuals: seq<(string, int)>): TeamTarget
  {
    var target := ValueOr0(targets, team);
    var actual := ValueOr0(actuals, team);
    TeamTarget(team, target, actual, Percentage(actual, target))
  }

  /** One line per team of `targets`, in its order. */
  function TeamTargetsOf(targets: seq<(string, int)>, actuals: seq<(string, int)>): seq<TeamTarget>
  {
    if |targets| == 0 then []
    else seq(|targets|, i requires 0 <= i < |targets| => TargetLine(targets[i].0, targets, actuals))
  }

  /** The `forEach` over the settings rows: `targetMap[s.team_name] = s.target_2026`
      for each row with a team and a target. */
  method CollectTeamTargets(data: seq<ST.Setting>) returns (targetMap: seq<(string, int)>)
    ensures targetMap == Assigned(Filter(data, HasTarget), ST.TeamOf, ST.TargetOf)
  {
    targetMap := [];
    var i := 0;
    while i < |data|
      invariant 0 <= i <= |data|
      invariant targetMap == Assigned(Filter(data[..i], HasTarget), ST.TeamOf, ST.TargetOf)
    {
      var s := data[i];
      AssignedFilterStep(data, HasTarget, ST.TeamOf, ST.TargetOf, i);
      if TruthyText(s.teamName) && Truthy(s.target2026) {
        targetMap := AssignStep(targetMap, ST.TeamOf, ST.TargetOf, s);
      }
      i := i + 1;
    }
    assert data[..i] == data;
  }

  /** The `forEach` over the sales rows: `actualMap[team] += item.price || 0`. */
  method CollectActuals(salesData: seq<Opportunity>) returns (actualMap: seq<(string, int)>)
    ensures actualMap == GroupBy(salesData, TeamOf, 0, AddPrice)
  {
    actualMap := [];
    var j := 0;
    while j < |salesData|
      invariant 0 <= j <= |salesData|
      invariant actualMap == GroupBy(salesData[..j], TeamOf, 0, AddPrice)
    {
      assert salesData[..j + 1][..j] == salesData[..j];
      actualMap := GroupStep(actualMap, TeamOf, 0, AddPrice, salesData[j]);
      j := j + 1;
    }
    assert salesData[..j] == salesData;
  }

  /** `getTeamTargets`: a failed settings query gives no lines; a failed sales
      query is logged and the lines carry no sales. */
  method GetTeamTargets(settings: seq<ST.Setting>, sales: seq<Opportunity>, settingsFailed: bool, salesFailed: bool)
    returns (r: seq<TeamTarget>)
    ensures settingsFailed ==> r == []
    ensures !settingsFailed ==> r == TeamTargetsOf(TargetMap(settings), ActualMap(if salesFailed then [] else sales))
  {
    if settingsFailed {
      return [];
    }
    var data := Filter(settings, SalesTeamRow);
    var salesData := if salesFailed then [] else Filter(sales, ClosedOrWon);
    assert salesFailed ==> Filter([], ClosedOrWon) == [];
    var targetMap := CollectTeamTargets(data);
    var actualMap := CollectActuals(salesData);
    if |targetMap| == 0 {
      return [];
    }
    r := seq(|targetMap|, k requires 0 <= k < |targetMap| => TargetLine(targetMap[k].0, targetMap, actualMap));
  }

  /** Each team once, and a team has a target exactly when a sales-funnel
      setting gives it a non-empty name and a non-zero target. */
  lemma TargetTeams(settings: seq<ST.Setting>)
    ensures Distinct(Keys(TargetMap(settings)))
    ensures forall k :: k in Keys(TargetMap(settings)) <==>
              exists s :: s in settings && SalesTeamRow(s) && HasTarget(s) && s.teamName == Some(k)
  {
    var d := Filter(Filter(settings, SalesTeamRow), HasTarget);
    AssignedKeys(d, ST.TeamOf, ST.TargetOf);
    forall k ensures k in Keys(TargetMap(settings)) <==>
                     exists s :: s in settings && SalesTeamRow(s) && HasTarget(s) && s.teamName == Some(k)
    {
      if exists s :: s in settings && SalesTeamRow(s) && HasTarget(s) && s.teamName == Some(k) {
        var s :| s in settings && SalesTeamRow(s) && HasTarget(s) && s.teamName == Some(k);
        FilterContains(settings, SalesTeamRow, s);
        FilterContains(Filter(settings, SalesTeamRow), HasTarget, s);
        var m :| 0 <= m < |d| && d[m] == s;
        assert ST.TeamOf(d[m]) == k;
      }
      if k in Keys(TargetMap(settings)) {
        var m :| 0 <= m < |d| && ST.TeamOf(d[m]) == k;
        FilterContains(Filter(settings, SalesTeamRow), HasTarget, d[m]);
        FilterContains(settings, SalesTeamRow, d[m]);
      }
    }
  }

  /** A team's target is the non-zero target of one of its sales-funnel settings. */
  lemma TargetValue(settings: seq<ST.Setting>, k: string)
    requires Lookup(TargetMap(settings), k).Some?
    ensures Lookup(TargetMap(settings), k).value != 0
    ensures exists s :: s in settings && SalesTeamRow(s) && s.teamName == Some(k)
                        && s.target2026 == Some(Lookup(TargetMap(settings), k).value)
  {
    var d := Filter(Filter(settings, SalesTeamRow), HasTarget);
    AssignedValue(d, ST.TeamOf, ST.TargetOf, k);
    var m :| 0 <= m < |d| && ST.TeamOf(d[m]) == k && Lookup(TargetMap(settings), k) == Some(ST.TargetOf(d[m]));
    FilterContains(Filter(settings, SalesTeamRow), HasTarget, d[m]);
    FilterContains(settings, SalesTeamRow, d[m]);
  }

  function Self(v: int): int
  {
    v
  }

  /** A team's actual figure is the sum of the prices of its closed and won
      opportunities (0 when it has none). */
  lemma ActualValue(sales: seq<Opportunity>, k: string)
    ensures ValueOr0(ActualMap(sales), k) == SumBy(Filter(Filter(sales, ClosedOrWon), KeyIs(TeamOf, k)), PriceOf)
  {
    var sel := Filter(Filter(sales, ClosedOrWon), KeyIs(TeamOf, k));
    GroupByLookup(Filter(sales, ClosedOrWon), TeamOf, 0, AddPrice, k);
    FoldProjection(sel, 0, AddPrice, Self, PriceOf);
  }

  /** The report lists each team with a target once, and exactly those teams;
      a line's target is the non-zero target of one of the team's sales-funnel
      settings, its actual figure the sum of the prices of the team's closed
      and won opportunities, and its percentage the rounded share of the one
      in the other. */
  lemma TeamTargetsMeaning(settings: seq<ST.Setting>, sales: seq<Opportunity>)
    ensures var r := TeamTargetsOf(TargetMap(settings), ActualMap(sales));
            && (forall i, j :: 0 <= i < j < |r| ==> r[i].team != r[j].team)
            && (forall k :: (exists i :: 0 <= i < |r| && r[i].team == k) <==>
                  (exists s :: s in settings && SalesTeamRow(s) && HasTarget(s) && s.teamName == Some(k)))
            && (forall i :: 0 <= i < |r| ==>
                  r[i].target != 0
                  && (exists s :: s in settings && SalesTeamRow(s) && s.teamName == Some(r[i].team)
                                   && s.target2026 == Some(r[i].target))
                  && r[i].actual == SumBy(Filter(Filter(sales, ClosedOrWon), KeyIs(TeamOf, r[i].team)), PriceOf)
                  && r[i].percentage == Percentage(r[i].actual, r[i].target))
  {
    var targets := TargetMap(settings);
    var r := TeamTargetsOf(targets, ActualMap(sales));
    TargetTeams(settings);
    assert |r| == |targets|;
    assert forall i :: 0 <= i < |r| ==> r[i].team == Keys(targets)[i];
    forall k ensures (exists i :: 0 <= i < |r| && r[i].team == k) <==> k in Keys(targets) {
      if k in Keys(targets) {
        var i :| 0 <= i < |Keys(targets)| && Keys(targets)[i] == k;
        assert r[i].team == k;
      }
    }
    forall i | 0 <= i < |r|
      ensures r[i].target != 0
      ensures exists s :: s in settings && SalesTeamRow(s) && s.teamName == Some(r[i].team)
                          && s.target2026 == Some(r[i].target)
      ensures r[i].actual == SumBy(Filter(Filter(sales, ClosedOrWon), KeyIs(TeamOf, r[i].team)), PriceOf)
    {
      LookupDistinct(targets, i);
      TargetValue(settings, targets[i].0);
      ActualValue(sales, targets[i].0);
    }
  }

  // ---------------------------------------------------------------- getFunnelConversions

  datatype Conversion = Conversion(stage: string, count: int, value: int, percentage: int)

  /** The line of a stage: its count, its value and its share of all rows in percent. */
  function ConversionOf(rows: seq<Opportunity>, stage: string): Conversion
  {
    var items := Filter(rows, KeyIs(SF.StageOf, stage));
    Conversion(stage, |items|, SumBy(items, PriceOf), Percentage(|items|, |rows|))
  }

  /** `getFunnelConversions`: a line per stage of the funnel, in funnel order;
      all zero when the query fails. */
  function FunnelConversions(rows: seq<Opportunity>, failed: bool): (r: seq<Conversion>)
    ensures |r| == 6
    ensures forall k :: 0 <= k < 6 ==> r[k].stage == SFS.StageNames[k]
    ensures failed ==> forall k :: 0 <= k < 6 ==> r[k] == Conversion(SFS.StageNames[k], 0, 0, 0)
    ensures !failed ==> forall k :: 0 <= k < 6 ==>
              r[k].count == Count(rows, KeyIs(SF.StageOf, SFS.StageNames[k]))
              && r[k].value == SumBy(rows, PriceIn(SFS.StageNames[k]))
    ensures forall k :: 0 <= k < 6 ==> 0 <= r[k].count <= |rows| && 0 <= r[k].percentage <= 100
    ensures rows == [] ==> forall k :: 0 <= k < 6 ==> r[k].percentage == 0
  {
    if failed then seq(6, k requires 0 <= k < 6 => Conversion(SFS.StageNames[k], 0, 0, 0))
    else
      var r := seq(6, k requires 0 <= k < 6 => ConversionOf(rows, SFS.StageNames[k]));
      assert forall k :: 0 <= k < 6 ==> r[k].value == SumBy(rows, PriceIn(SFS.StageNames[k])) by {
        forall k | 0 <= k < 6 ensures r[k].value == SumBy(rows, PriceIn(SFS.StageNames[k])) {
          PriceInStage(rows, SFS.StageNames[k]);
        }
      }
      r
  }

  /** The six counts never count a row twice: together they count exactly the
      rows whose stage is one of the six, which is every row when all stages
      are valid. */
  lemma ConversionsCover(rows: seq<Opportunity>)
    ensures var r := FunnelConversions(rows, false);
            r[0].count + r[1].count + r[2].count + r[3].count + r[4].count + r[5].count
              == Count(rows, KeyAmong(SF.StageOf, SFS.StageNames))
    ensures (forall i :: 0 <= i < |rows| ==> rows[i].stage in SFS.StageNames) ==>
              var r := FunnelConversions(rows, false);
              r[0].count + r[1].count + r[2].count + r[3].count + r[4].count + r[5].count == |rows|
  {
    var r := FunnelConversions(rows, false);
    SF.ByStageCovers(rows);
    assert SFS.StageNames[1..][1..][1..][1..][1..][1..] == [];
    assert CountEach(rows, SF.StageOf, SFS.StageNames) ==
           r[0].count + r[1].count + r[2].count + r[3].count + r[4].count + r[5].count;
    if forall i :: 0 <= i < |rows| ==> rows[i].stage in SFS.StageNames {
      FilterAll(rows, KeyAmong(SF.StageOf, SFS.StageNames));
    }
  }

  // ---------------------------------------------------------------- getMonthlyTrends

  /** A `{ total, closed }` entry of the monthly trends. */
  datatype MonthTotals = MonthTotals(total: int, closed: int)

  function TotalOf(t: MonthTotals): int
  {
    t.total
  }

  function ClosedOf(t: MonthTotals): int
  {
    t.closed
  }

  /** `total += price; if (stage === 'Closed') closed += price`. */
  function AddToMonth(t: MonthTotals, o: Opportunity): MonthTotals
  {
    MonthTotals(t.total + PriceOf(o), t.closed + PriceIn("Closed")(o))
  }

  /** Rows with a creation date; the others are skipped. */
  predicate Dated(o: Opportunity)
  {
    o.createdDate.Some?
  }

  /** The `YYYY-MM` key of a day (`getFullYear()` and the zero-padded
      `getMonth() + 1`); a `Date` always reports a month 1..12. */
  function MonthKey(d: Date): string
  {
    IntToString(d.year) + "-" + Pad2(if 1 <= d.month then d.month else 0)
  }

  function MonthOf(o: Opportunity): string
  {
    if o.createdDate.Some? then MonthKey(o.createdDate.value) else ""
  }

  /** The monthly totals, months in order of first appearance. */
  function TrendsOf(rows: seq<Opportunity>): seq<(string, MonthTotals)>
  {
    GroupBy(Filter(rows, Dated), MonthOf, MonthTotals(0, 0), AddToMonth)
  }

  /** `getMonthlyTrends`. */
  method GetMonthlyTrends(rows: seq<Opportunity>, failed: bool) returns (r: seq<(string, MonthTotals)>)
    ensures failed ==> r == []
    ensures !failed ==> r == TrendsOf(rows)
  {
    if failed {
      return [];
    }
    var monthlyData: seq<(string, MonthTotals)> := [];
    var i := 0;
    while i < |rows|
      invariant 0 <= i <= |rows|
      invariant monthlyData == GroupBy(Filter(rows[..i], Dated), MonthOf, MonthTotals(0, 0), AddToMonth)
    {
      var item := rows[i];
      GroupByFilterStep(rows, Dated, MonthOf, MonthTotals(0, 0), AddToMonth, i);
      if item.createdDate.None? {
        i := i + 1;
        continue;
      }
      monthlyData := GroupStep(monthlyData, MonthOf, MonthTotals(0, 0), AddToMonth, item);
      i := i + 1;
    }
    assert rows[..i] == rows;
    r := monthlyData;
  }

  /** Two days of four-digit years share a key exactly when they fall in the
      same month of the same year. */
  lemma MonthKeySameMonth(a: Date, b: Date)
    requires Valid(a) && Valid(b) && 1000 <= a.year <= 9999 && 1000 <= b.year <= 9999
    ensures MonthKey(a) == MonthKey(b) <==> a.year == b.year && a.month == b.month
  {
    NatToStringLength4(a.year);
    NatToStringLength4(b.year);
    var ka, kb := MonthKey(a), MonthKey(b);
    assert ka[..4] == NatToString(a.year) && ka[5..] == Pad2(a.month);
    assert kb[..4] == NatToString(b.year) && kb[5..] == Pad2(b.month);
  }

  /** Each month once; every dated row's month is listed; the totals add up to
      the prices of the dated rows and the closed figures to those of the
      dated closed rows. */
  lemma TrendsConsistent(rows: seq<Opportunity>)
    ensures var r := TrendsOf(rows);
            var dated := Filter(rows, Dated);
            && Distinct(Keys(r))
            && (forall i :: 0 <= i < |rows| && Dated(rows[i]) ==> MonthOf(rows[i]) in Keys(r))
            && SumBy(r, Weigh(TotalOf)) == SumBy(dated, PriceOf)
            && SumBy(r, Weigh(ClosedOf)) == SumBy(Filter(dated, KeyIs(SF.StageOf, "Closed")), PriceOf)
  {
    var dated := Filter(rows, Dated);
    GroupByKeys(dated, MonthOf, MonthTotals(0, 0), AddToMonth);
    GroupBySum(dated, MonthOf, MonthTotals(0, 0), AddToMonth, TotalOf, PriceOf);
    GroupBySum(dated, MonthOf, MonthTotals(0, 0), AddToMonth, ClosedOf, PriceIn("Closed"));
    PriceInStage(dated, "Closed");
    forall i | 0 <= i < |rows| && Dated(rows[i]) ensures MonthOf(rows[i]) in Keys(TrendsOf(rows)) {
      FilterContains(rows, Dated, rows[i]);
      var m :| 0 <= m < |dated| && dated[m] == rows[i];
    }
  }

  // ---------------------------------------------------------------- getTopClients

  function ClientOf(o: Opportunity): string
  {
    o.clientName
  }

  /** `clientMap`: each client's total price, clients in order of first appearance. */
  function ClientTotals(rows: seq<Opportunity>): seq<(string, int)>
  {
    GroupBy(rows, ClientOf, 0, AddPrice)
  }

  /** `limit = 10` when no limit is passed. */
  function LimitOr10(limit: Option<int>): int
  {
    if limit.Some? then limit.value else 10
  }

  function TopClientsOf(rows: seq<Opportunity>, limit: Option<int>): seq<(string, int)>
  {
    Take(SortDesc(ClientTotals(rows)), LimitOr10(limit))
  }

  /** `getTopClients`. */
  method GetTopClients(rows: seq<Opportunity>, limit: Option<int>, failed: bool) returns (r: seq<(string, int)>)
    ensures failed ==> r == []
    ensures !failed ==> r == TopClientsOf(rows, limit)
  {
    if failed {
      return [];
    }
    var clientMap: seq<(string, int)> := [];
    var i := 0;
    while i < |rows|
      invariant 0 <= i <= |rows|
      invariant clientMap == GroupBy(rows[..i], ClientOf, 0, AddPrice)
    {
      assert rows[..i + 1][..i] == rows[..i];
      clientMap := GroupStep(clientMap, ClientOf, 0, AddPrice, rows[i]);
      i := i + 1;
    }
    assert rows[..i] == rows;
    r := Take(SortDesc(clientMap), LimitOr10(limit));
  }

  /** Each client's total is the sum of the prices of that client's rows. */
  lemma ClientTotal(rows: seq<Opportunity>, t: nat)
    requires t < |ClientTotals(rows)|
    ensures var x := ClientTotals(rows)[t];
            (exists j :: 0 <= j < |rows| && rows[j].clientName == x.0)
            && x.1 == SumBy(Filter(rows, KeyIs(ClientOf, x.0)), PriceOf)
  {
    var totals := ClientTotals(rows);
    var x := totals[t];
    GroupByKeys(rows, ClientOf, 0, AddPrice);
    assert Keys(totals)[t] == x.0;
    assert x.0 in Keys(totals);
    var j :| 0 <= j < |rows| && ClientOf(rows[j]) == x.0;
    assert rows[j].clientName == x.0;
    LookupDistinct(totals, t);
    GroupByLookup(rows, ClientOf, 0, AddPrice, x.0);
    FoldProjection(Filter(rows, KeyIs(ClientOf, x.0)), 0, AddPrice, Self, PriceOf);
  }

  /** The top clients: each client once, highest total first, each total the
      sum of that client's prices, at most `limit` of them (10 by default), and
      no client left out has a higher total than one listed. */
  lemma TopClientsMeaning(rows: seq<Opportunity>, limit: Option<int>)
    ensures var r := TopClientsOf(rows, limit);
            && Distinct(Keys(r))
            && SortedDesc(r)
            && (LimitOr10(limit) >= 0 ==> |r| <= LimitOr10(limit))
            && (forall i :: 0 <= i < |r| ==>
                  (exists j :: 0 <= j < |rows| && rows[j].clientName == r[i].0)
                  && r[i].1 == SumBy(Filter(rows, KeyIs(ClientOf, r[i].0)), PriceOf))
            && (forall x, y :: x in ClientTotals(rows) && x !in r && y in r ==> x.1 <= y.1)
  {
    var totals := ClientTotals(rows);
    var sorted := SortDesc(totals);
    var r := TopClientsOf(rows, limit);
    GroupByKeys(rows, ClientOf, 0, AddPrice);
    SortDescKeys(totals);
    SortDescSorted(totals);
    TakeTop(totals, LimitOr10(limit));
    assert r == sorted[..|r|];
    assert Distinct(Keys(r)) by {
      forall a, b | 0 <= a < b < |r| ensures Keys(r)[a] != Keys(r)[b] {
        assert Keys(sorted)[a] != Keys(sorted)[b];
      }
    }
    assert SortedDesc(r) by {
      forall a, b | 0 <= a < b < |r| ensures r[a].1 >= r[b].1 {
        assert r[a] == sorted[a] && r[b] == sorted[b];
      }
    }
    forall i | 0 <= i < |r|
      ensures exists j :: 0 <= j < |rows| && rows[j].clientName == r[i].0
      ensures r[i].1 == SumBy(Filter(rows, KeyIs(ClientOf, r[i].0)), PriceOf)
    {
      assert r[i] == sorted[i];
      assert r[i] in multiset(totals);
      var t :| 0 <= t < |totals| && totals[t] == r[i];
      ClientTotal(rows, t);
    }
  }

  // ---------------------------------------------------------------- getServiceContractMetrics

  /** An entry of `latestContracts`. */
  datatype ContractBrief = ContractBrief(
    id: string,
    clientName: string,
    stage: string,
    price: Option<int>,
    createdDate: Option<Date>,
    closeDate: Option<Date>)

  function BriefOf(c: Contract): ContractBrief
  {
    ContractBrief(c.id, c.clientName, c.stage, c.price, c.createdDate, c.closeDate)
  }

  /** `byStage`: the number of contracts in each of the three stages. */
  datatype StageCounts = StageCounts(closed: nat, hot: nat, warm: nat)

  datatype ContractMetrics = ContractMetrics(
    total: int,
    closed: int,
    yearly: int,
    count: nat,
    closedCount: nat,
    latestContracts: seq<ContractBrief>,
    earliestDate: Option<Date>,
    latestDate: Option<Date>,
    byStage: StageCounts)

  const EmptyContractMetrics := ContractMetrics(0, 0, 0, 0, 0, [], None, None, StageCounts(0, 0, 0))

  function ContractPrice(c: Contract): int
  {
    OrZero(c.price)
  }

  /** `d.yearly_payment || 0`. */
  function YearlyOf(c: Contract): int
  {
    OrZero(c.yearlyPayment)
  }

  function ContractStage(c: Contract): string
  {
    c.stage
  }

  /** The creation dates present, in order (`map(created_date).filter(Boolean)`). */
  function CreatedDates(cs: seq<Contract>): (ds: seq<Date>)
    ensures forall d :: d in ds <==> exists c :: c in cs && c.createdDate == Some(d)
    decreases |cs|
  {
    if cs == [] then []
    else
      var init := cs[..|cs| - 1];
      var last := cs[|cs| - 1];
      assert forall c :: c in cs <==> c in init || c == last by {
        assert cs == init + [last];
      }
      CreatedDates(init) + (if last.createdDate.Some? then [last.createdDate.value] else [])
  }

  /** `Math.min(...dates)`: the earliest day, None for no days. */
  function Earliest(ds: seq<Date>): (r: Option<Date>)
    ensures r.Some? <==> ds != []
    ensures r.Some? ==> r.value in ds && forall d :: d in ds ==> NotAfter(r.value, d)
    decreases |ds|
  {
    if ds == [] then None
    else
      var init := ds[..|ds| - 1];
      var last := ds[|ds| - 1];
      assert ds == init + [last];
      var e := Earliest(init);
      if e.Some? && NotAfter(e.value, last) then e
      else
        assert e.Some? ==> forall d :: d in init ==> NotAfter(last, d) by {
          if e.Some? {
            forall d | d in init ensures NotAfter(last, d) {
              NotAfterTotal(e.value, last);
              NotAfterTransitive(last, e.value, d);
            }
          }
        }
        Some(last)
  }

  /** `Math.max(...dates)`: the latest day, None for no days. */
  function Latest(ds: seq<Date>): (r: Option<Date>)
    ensures r.Some? <==> ds != []
    ensures r.Some? ==> r.value in ds && forall d :: d in ds ==> NotAfter(d, r.value)
    decreases |ds|
  {
    if ds == [] then None
    else
      var init := ds[..|ds| - 1];
      var last := ds[|ds| - 1];
      assert ds == init + [last];
      var e := Latest(init);
      if e.Some? && NotAfter(last, e.value) then e
      else
        assert e.Some? ==> forall d :: d in init ==> NotAfter(d, last) by {
          if e.Some? {
            forall d | d in init ensures NotAfter(d, last) {
              NotAfterTotal(e.value, last);
              NotAfterTransitive(d, e.value, last);
            }
          }
        }
        Some(last)
  }

  /** `getServiceContractMetrics`, over the contracts newest first. */
  function ContractMetricsOf(cs: seq<Contract>, failed: bool): (m: ContractMetrics)
    ensures failed ==> m == EmptyContractMetrics
    ensures !failed ==> m.count == |cs| && m.closedCount == m.byStage.closed
    ensures !failed ==> |m.latestContracts| == (if |cs| < 5 then |cs| else 5)
                        && forall k :: 0 <= k < |m.latestContracts| ==> m.latestContracts[k] == BriefOf(cs[k])
    ensures !failed ==> (m.earliestDate.Some? <==> exists c :: c in cs && c.createdDate.Some?)
                        && (m.latestDate.Some? <==> m.earliestDate.Some?)
    ensures !failed && m.earliestDate.Some? ==>
              NotAfter(m.earliestDate.value, m.latestDate.value)
              && forall c :: c in cs && c.createdDate.Some? ==>
                   NotAfter(m.earliestDate.value, c.createdDate.value)
                   && NotAfter(c.createdDate.value, m.latestDate.value)
  {
    if failed then EmptyContractMetrics
    else
      var closedContracts := Filter(cs, KeyIs(ContractStage, "Closed"));
      var latest := cs[..if |cs| < 5 then |cs| else 5];
      var dates := CreatedDates(cs);
      var earliest := Earliest(dates);
      var newest := Latest(dates);
      assert (exists c :: c in cs && c.createdDate.Some?) ==> dates != [] by {
        if exists c :: c in cs && c.createdDate.Some? {
          var c :| c in cs && c.createdDate.Some?;
          assert c.createdDate.value in dates;
        }
      }
      ContractMetrics(
        SumBy(cs, ContractPrice), SumBy(closedContracts, ContractPrice), SumBy(cs, YearlyOf), |cs|,
        |closedContracts|, seq(|latest|, k requires 0 <= k < |latest| => BriefOf(latest[k])),
        earliest, newest,
        StageCounts(|closedContracts|, Count(cs, KeyIs(ContractStage, "Hot")), Count(cs, KeyIs(ContractStage, "Warm"))))
  }

  /** When every contract is in one of the three stages the schema offers, the
      three stage counts add up to the number of contracts. */
  lemma ContractStagesCover(cs: seq<Contract>)
    requires forall i :: 0 <= i < |cs| ==> cs[i].stage in SCS.StageEnum
    ensures var m := ContractMetricsOf(cs, false);
            m.byStage.closed + m.byStage.hot + m.byStage.warm == m.count
  {
    var ks := ["Closed", "Hot", "Warm"];
    assert ks == SCS.StageEnum;
    CountEachPartition(cs, ContractStage, ks);
    assert ks[1..][1..][1..] == [];
    FilterAll(cs, KeyAmong(ContractStage, ks));
  }

  /** The closed value and the value of the other contracts make up the total. */
  lemma ContractValueSplit(cs: seq<Contract>)
    ensures var m := ContractMetricsOf(cs, false);
            m.closed + SumBy(Filter(cs, Not(KeyIs(ContractStage, "Closed"))), ContractPrice) == m.total
  {
    FilterSplitSum(cs, KeyIs(ContractStage, "Closed"), ContractPrice);
  }
}
