/** `src/lib/actions/settings.ts`: the sales and contract targets per team and
    the win probability per stage, read from the `settings` table. */
module Settings {
  import opened Common
  import opened Seqs
  import opened Groups

  /** A row of `settings`. */
  datatype Setting = Setting(
    id: string,
    settingType: string,
    stageName: Option<string>,
    probability: Option<real>,
    teamName: Option<string>,
    target2026: Option<int>)

  /** The rows the target queries select: the setting type, with a team and a target. */
  function IsTarget(settingType: string): Setting -> bool
  {
    (s: Setting) => s.settingType == settingType && s.teamName.Some? && s.target2026.Some?
  }

  /** The rows the probability query selects: sales-funnel rows with a stage. */
  function IsProbability(s: Setting): bool
  {
    s.settingType == "sales_funnel" && s.stageName.Some?
  }

  /** `s.team_name!` (the target queries admit only rows with a team). */
  function TeamOf(s: Setting): string
  {
    if s.teamName.Some? then s.teamName.value else ""
  }

  /** `s.target_2026!` (the target queries admit only rows with a target). */
  function TargetOf(s: Setting): int
  {
    if s.target2026.Some? then s.target2026.value else 0
  }

  /** `s.stage_name!` (the probability query admits only rows with a stage). */
  function StageNameOf(s: Setting): string
  {
    if s.stageName.Some? then s.stageName.value else ""
  }

  /** `s.probability ?? 0`: a null probability reads as 0. */
  function ProbabilityOf(s: Setting): (p: real)
    ensures s.probability.None? ==> p == 0.0
    ensures s.probability.Some? ==> p == s.probability.value
  {
    if s.probability.Some? then s.probability.value else 0.0
  }

  /** The team-to-target dictionary built from the rows of a setting type. */
  function TargetsOf(table: seq<Setting>, settingType: string): seq<(string, int)>
  {
    Assigned(Filter(table, IsTarget(settingType)), TeamOf, TargetOf)
  }

  /** The stage-to-probability dictionary. */
  function ProbabilitiesOf(table: seq<Setting>): seq<(string, real)>
  {
    Assigned(Filter(table, IsProbability), StageNameOf, ProbabilityOf)
  }

  /** Each team has one entry; the teams are exactly those of the selected rows
      (rows of the setting type with a team and a target), and a team's target
      is that of its last selected row. */
  lemma TargetsTable(table: seq<Setting>, settingType: string)
    ensures var d := Filter(table, IsTarget(settingType));
            var r := TargetsOf(table, settingType);
            && Distinct(Keys(r))
            && (forall i :: 0 <= i < |d| ==>
                  d[i] in table && d[i].settingType == settingType && d[i].teamName.Some? && d[i].target2026.Some?)
            && (forall k :: k in Keys(r) <==> exists i :: 0 <= i < |d| && d[i].teamName == Some(k))
            && (forall j :: 0 <= j < |d| && (forall m :: j < m < |d| ==> d[m].teamName != d[j].teamName) ==>
                  Lookup(r, d[j].teamName.value) == Some(d[j].target2026.value))
  {
    var d := Filter(table, IsTarget(settingType));
    AssignedKeys(d, TeamOf, TargetOf);
    forall i | 0 <= i < |d| ensures d[i] in table && IsTarget(settingType)(d[i]) {
      FilterContains(table, IsTarget(settingType), d[i]);
    }
    forall j | 0 <= j < |d| && (forall m :: j < m < |d| ==> d[m].teamName != d[j].teamName)
      ensures Lookup(TargetsOf(table, settingType), d[j].teamName.value) == Some(d[j].target2026.value)
    {
      assert IsTarget(settingType)(d[j]);
      forall m | j < m < |d| ensures TeamOf(d[m]) != TeamOf(d[j]) {
        assert IsTarget(settingType)(d[m]);
      }
      AssignedLookup(d, TeamOf, TargetOf, j);
    }
  }

  /** Each stage has one entry; the stages are exactly those of the sales-funnel
      rows naming one, and a stage's probability is that of its last row, a null
      one reading as 0. */
  lemma ProbabilitiesTable(table: seq<Setting>)
    ensures var d := Filter(table, IsProbability);
            var r := ProbabilitiesOf(table);
            && Distinct(Keys(r))
            && (forall k :: k in Keys(r) <==> exists i :: 0 <= i < |d| && d[i].stageName == Some(k))
            && (forall j :: 0 <= j < |d| && (forall m :: j < m < |d| ==> d[m].stageName != d[j].stageName) ==>
                  Lookup(r, d[j].stageName.value) ==
                    Some(if d[j].probability.Some? then d[j].probability.value else 0.0))
  {
    var d := Filter(table, IsProbability);
    AssignedKeys(d, StageNameOf, ProbabilityOf);
    forall j | 0 <= j < |d| && (forall m :: j < m < |d| ==> d[m].stageName != d[j].stageName)
      ensures Lookup(ProbabilitiesOf(table), d[j].stageName.value) ==
                Some(if d[j].probability.Some? then d[j].probability.value else 0.0)
    {
      assert IsProbability(d[j]);
      forall m | j < m < |d| ensures StageNameOf(d[m]) != StageNameOf(d[j]) {
        assert IsProbability(d[m]);
      }
      AssignedLookup(d, StageNameOf, ProbabilityOf, j);
    }
  }

  /** The `forEach` of the target getters: `teamMap[s.team_name!] = s.target_2026!`
      for each selected row in order. */
  method CollectTargets(data: seq<Setting>) returns (teamMap: seq<(string, int)>)
    ensures teamMap == Assigned(data, TeamOf, TargetOf)
  {
    teamMap := [];
    var i := 0;
    while i < |data|
      invariant 0 <= i <= |data|
      invariant teamMap == Assigned(data[..i], TeamOf, TargetOf)
    {
      assert data[..i + 1][..i] == data[..i];
      teamMap := AssignStep(teamMap, TeamOf, TargetOf, data[i]);
      i := i + 1;
    }
    assert data[..i] == data;
  }

  /** `getSalesTargets`: the team targets of the sales funnel. */
  method GetSalesTargets(table: seq<Setting>, failure: Option<string>) returns (r: Result<seq<(string, int)>>)
    ensures failure.Some? ==> r == Err(StoreError(failure.value))
    ensures failure.None? ==> r == Ok(TargetsOf(table, "sales_funnel"))
  {
    if failure.Some? {
      return Err(StoreError(failure.value));
    }
    var teamMap := CollectTargets(Filter(table, IsTarget("sales_funnel")));
    r := Ok(teamMap);
  }

  /** `getServiceContractTargets`: the team targets of the service contracts. */
  method GetServiceContractTargets(table: seq<Setting>, failure: Option<string>) returns (r: Result<seq<(string, int)>>)
    ensures failure.Some? ==> r == Err(StoreError(failure.value))
    ensures failure.None? ==> r == Ok(TargetsOf(table, "service_contract"))
  {
    if failure.Some? {
      return Err(StoreError(failure.value));
    }
    var teamMap := CollectTargets(Filter(table, IsTarget("service_contract")));
    r := Ok(teamMap);
  }

  /** `getStageProbabilities`: the win probability of each stage. */
  method GetStageProbabilities(table: seq<Setting>, failure: Option<string>) returns (r: Result<seq<(string, real)>>)
    ensures failure.Some? ==> r == Err(StoreError(failure.value))
    ensures failure.None? ==> r == Ok(ProbabilitiesOf(table))
  {
    if failure.Some? {
      return Err(StoreError(failure.value));
    }
    var data := Filter(table, IsProbability);
    var stageMap: seq<(string, real)> := [];
    var i := 0;
    while i < |data|
      invariant 0 <= i <= |data|
      invariant stageMap == Assigned(data[..i], StageNameOf, ProbabilityOf)
    {
      assert data[..i + 1][..i] == data[..i];
      stageMap := AssignStep(stageMap, StageNameOf, ProbabilityOf, data[i]);
      i := i + 1;
    }
    assert data[..i] == data;
    r := Ok(stageMap);
  }

  /** What `getAllSettings` returns. */
  datatype AllSettings = AllSettings(
    salesTargets: seq<(string, int)>,
    stageProbabilities: seq<(string, real)>,
    serviceContractTargets: seq<(string, int)>)

  /** `getAllSettings`: the three results unchanged, or a failure of one of
      them (the model reports the first in argument order). */
  method GetAllSettings(table: seq<Setting>, f1: Option<string>, f2: Option<string>, f3: Option<string>)
    returns (r: Result<AllSettings>)
    ensures f1.None? && f2.None? && f3.None? ==>
              r == Ok(AllSettings(TargetsOf(table, "sales_funnel"), ProbabilitiesOf(table),
                                  TargetsOf(table, "service_contract")))
    ensures f1.Some? ==> r == Err(StoreError(f1.value))
    ensures f1.None? && f2.Some? ==> r == Err(StoreError(f2.value))
    ensures f1.None? && f2.None? && f3.Some? ==> r == Err(StoreError(f3.value))
  {
    var sales := GetSalesTargets(table, f1);
    var stages := GetStageProbabilities(table, f2);
    var contracts := GetServiceContractTargets(table, f3);
    if sales.Err? {
      return Err(sales.error);
    }
    if stages.Err? {
      return Err(stages.error);
    }
    if contracts.Err? {
      return Err(contracts.error);
    }
    r := Ok(AllSettings(sales.value, stages.value, contracts.value));
  }
}
