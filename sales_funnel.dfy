/** `src/lib/actions/sales-funnel.ts`: the server actions over the
    `sales_funnel` table of sales opportunities. */
module SalesFunnel {
  import opened Common
  import opened Seqs
  import opened Groups
  import opened Calendar
  import opened Store
  import opened SalesFunnelSchema

  /** A row of `sales_funnel` (the database-maintained `updated_at` is left out). */
  datatype Opportunity = Opportunity(
    id: string,
    clientName: string,
    workInfo: Option<string>,
    stage: string,
    price: Option<int>,
    priceWithoutVat: Option<real>,
    paymentPercentage: Option<real>,
    paidAmount: Option<int>,
    createdDate: Option<Date>,
    closeDate: Option<Date>,
    teamMember: Option<string>,
    progressToWon: Option<real>,
    progressNotes: Option<string>,
    status: Option<string>,
    remarks: Option<string>,
    createdBy: Option<string>)

  function IdOf(o: Opportunity): string
  {
    o.id
  }

  /** The form fields a row carries. */
  function FormOf(o: Opportunity): Form
  {
    Form(o.clientName, o.workInfo, o.stage, o.price, o.paymentPercentage, o.paidAmount,
         o.createdDate, o.closeDate, o.teamMember, o.progressNotes, o.status, o.remarks)
  }

  /** The row `createSalesFunnel` inserts: the form's fields, the price net of
      VAT and the creating user; no progress is recorded. */
  function NewOpportunity(id: string, input: Form, user: string): (o: Opportunity)
    ensures o.id == id && FormOf(o) == input
    ensures o.priceWithoutVat == PriceWithoutVat(input.price)
    ensures o.createdBy == Some(user) && o.progressToWon.None?
  {
    Opportunity(id, input.clientName, input.workInfo, input.stage, input.price, PriceWithoutVat(input.price),
                input.paymentPercentage, input.paidAmount, input.createdDate, input.closeDate,
                input.teamMember, None, input.progressNotes, input.status, input.remarks, Some(user))
  }

  /** A partial update (`SalesFunnelUpdate`): None leaves a column alone,
      Some(v) writes v (Some(None) writes null). */
  datatype Patch = Patch(
    clientName: Option<string>,
    workInfo: Option<Option<string>>,
    stage: Option<string>,
    price: Option<Option<int>>,
    priceWithoutVat: Option<Option<real>>,
    paymentPercentage: Option<Option<real>>,
    paidAmount: Option<Option<int>>,
    createdDate: Option<Option<Date>>,
    closeDate: Option<Option<Date>>,
    teamMember: Option<Option<string>>,
    progressToWon: Option<Option<real>>,
    progressNotes: Option<Option<string>>,
    status: Option<Option<string>>,
    remarks: Option<Option<string>>,
    createdBy: Option<Option<string>>)

  function Pick<T>(given: Option<T>, current: T): T
  {
    if given.Some? then given.value else current
  }

  /** The row after the update writes the patch's columns. */
  function Apply(o: Opportunity, p: Patch): Opportunity
  {
    Opportunity(o.id, Pick(p.clientName, o.clientName), Pick(p.workInfo, o.workInfo), Pick(p.stage, o.stage),
                Pick(p.price, o.price), Pick(p.priceWithoutVat, o.priceWithoutVat),
                Pick(p.paymentPercentage, o.paymentPercentage), Pick(p.paidAmount, o.paidAmount),
                Pick(p.createdDate, o.createdDate), Pick(p.closeDate, o.closeDate),
                Pick(p.teamMember, o.teamMember), Pick(p.progressToWon, o.progressToWon),
                Pick(p.progressNotes, o.progressNotes), Pick(p.status, o.status), Pick(p.remarks, o.remarks),
                Pick(p.createdBy, o.createdBy))
  }

  /** Is the patch's price given, non-null and non-zero? */
  predicate PriceTruthy(p: Patch)
  {
    p.price.Some? && Truthy(p.price.value)
  }

  /** What `updateSalesFunnel` sends: the input, plus the price net of VAT when
      the input's price is truthy. */
  function UpdatePayload(p: Patch): (q: Patch)
    ensures PriceTruthy(p) ==> q.priceWithoutVat == Some(PriceWithoutVat(p.price.value))
    ensures !PriceTruthy(p) ==> q == p
    ensures q.(priceWithoutVat := p.priceWithoutVat) == p
  {
    if PriceTruthy(p) then p.(priceWithoutVat := Some(PriceWithoutVat(p.price.value))) else p
  }

  /** An update with a truthy price stores the matching net price. */
  lemma UpdateDerivesVat(o: Opportunity, p: Patch)
    requires PriceTruthy(p)
    ensures Apply(o, UpdatePayload(p)).price == p.price.value
    ensures Apply(o, UpdatePayload(p)).priceWithoutVat == PriceWithoutVat(Apply(o, UpdatePayload(p)).price)
  {
  }

  /** An update that sets the price to 0 or null and sends no net price leaves the
      old net price in place, so it no longer matches the price. */
  lemma UpdateKeepsStaleVat(o: Opportunity, p: Patch)
    requires p.price == Some(Some(0)) || p.price == Some(None)
    requires p.priceWithoutVat.None? && o.priceWithoutVat.Some?
    ensures Apply(o, UpdatePayload(p)).priceWithoutVat == o.priceWithoutVat
    ensures Apply(o, UpdatePayload(p)).priceWithoutVat != PriceWithoutVat(Apply(o, UpdatePayload(p)).price)
  {
  }

  /** `progress_to_won` for a stage: 1 for Closed, 0.3 for Won, 0 otherwise. */
  function ProgressToWon(stage: string): (p: real)
    ensures 0.0 <= p <= 1.0
    ensures p == 1.0 <==> stage == "Closed"
  {
    if stage == "Closed" then 1.0 else if stage == "Won" then 0.3 else 0.0
  }

  /** Along the funnel from Cold to Closed the progress never falls. */
  lemma ProgressAlongFunnel(i: nat, j: nat)
    requires i <= j < 5
    ensures ProgressToWon(StageNames[i]) <= ProgressToWon(StageNames[j])
  {
  }

  /** The row after `updateSalesFunnelStage`: the stage and its progress written, nothing else. */
  function StageChange(o: Opportunity, stage: string): (r: Opportunity)
    ensures r.stage == stage && r.progressToWon == Some(ProgressToWon(stage))
    ensures r.(stage := o.stage, progressToWon := o.progressToWon) == o
  {
    o.(stage := stage, progressToWon := Some(ProgressToWon(stage)))
  }

  /** Repeating a stage change changes nothing more, and the outcome depends only on the target stage. */
  lemma StageChangeIdempotent(o: Opportunity, o': Opportunity, stage: string)
    ensures StageChange(StageChange(o, stage), stage) == StageChange(o, stage)
    ensures StageChange(o, stage).stage == StageChange(o', stage).stage
    ensures StageChange(o, stage).progressToWon == StageChange(o', stage).progressToWon
  {
  }

  /** The filters of `getSalesFunnel` (the text search is left to the database). */
  datatype ListOptions = ListOptions(stage: Option<string>, team: Option<string>, limit: Option<nat>, offset: Option<nat>)

  /** Does a row pass the stage and team filters that are given? */
  function Matches(opts: ListOptions): Opportunity -> bool
  {
    (o: Opportunity) => (TruthyText(opts.stage) ==> o.stage == opts.stage.value)
         && (TruthyText(opts.team) ==> o.teamMember == Some(opts.team.value))
  }

  function StageOf(o: Opportunity): string
  {
    o.stage
  }

  /** The `sales_funnel` table. */
  class SalesFunnelTable {
    var rows: seq<Opportunity>

    predicate Valid()
      reads this
    {
      UniqueIds(rows, IdOf)
    }

    constructor ()
      ensures rows == [] && Valid()
    {
      rows := [];
    }

    /** `getSalesFunnel`: the requested page of the rows passing the filters,
      and the number of rows passing them. */
    function GetSalesFunnel(opts: ListOptions, failure: Option<string>): (r: Result<Listing<Opportunity>>)
      reads this
      ensures failure.Some? <==> r.Err?
      ensures r.Err? ==> r.error == StoreError(failure.value)
      ensures r.Ok? ==> r.value.count == Count(rows, Matches(opts))
      ensures r.Ok? ==> forall k :: 0 <= k < |r.value.data| ==> r.value.data[k] in rows && Matches(opts)(r.value.data[k])
      ensures r.Ok? ==> r.value.data == Page(Filter(rows, Matches(opts)), opts.limit, opts.offset)
    {
      if failure.Some? then Err(StoreError(failure.value))
      else
        var selected := Filter(rows, Matches(opts));
        var page := Page(selected, opts.limit, opts.offset);
        PageRange(selected, opts.limit, opts.offset);
        assert forall k :: 0 <= k < |page| ==> page[k] in selected && Matches(opts)(page[k]) by {
          forall k | 0 <= k < |page| ensures page[k] in selected && Matches(opts)(page[k]) {
            PageMember(selected, opts.limit, opts.offset, k);
          }
        }
        assert forall k :: 0 <= k < |page| ==> page[k] in rows by {
          forall k | 0 <= k < |page| ensures page[k] in rows {
            FilterContains(rows, Matches(opts), page[k]);
          }
        }
        Ok(Listing(page, |selected|))
    }

    /** `getSalesFunnelById`: the row with the id, or "Бүртгэл олдсонгүй". */
    function GetById(id: string, failure: Option<string>): (r: Result<Opportunity>)
      reads this
      ensures failure.Some? ==> r == Err(StoreError(failure.value))
      ensures failure.None? ==> (r.Ok? <==> HasId(rows, IdOf, id))
      ensures r.Ok? ==> r.value in rows && r.value.id == id
      ensures failure.None? && r.Err? ==> r.error == NotFound(RecordNotFound)
    {
      if failure.Some? then Err(StoreError(failure.value)) else SelectById(rows, IdOf, id, RecordNotFound)
    }

    /** `createSalesFunnel`: refuses without a signed-in user, otherwise inserts
        the new row stamped with the user. */
    method Create(user: Option<string>, input: Form, newId: string, failure: Option<string>) returns (r: Result<Opportunity>)
      requires Valid()
      modifies this
      ensures Valid()
      ensures user.None? ==> r == Err(NotAuthenticated) && rows == old(rows)
      ensures user.Some? && failure.Some? ==> r == Err(StoreError(failure.value)) && rows == old(rows)
      ensures user.Some? && failure.None? && HasId(old(rows), IdOf, newId) ==>
                r == Err(StoreError(DuplicateKey)) && rows == old(rows)
      ensures user.Some? && failure.None? && !HasId(old(rows), IdOf, newId) ==>
                r == Ok(NewOpportunity(newId, input, user.value)) && rows == old(rows) + [r.value]
    {
      if user.None? {
        return Err(NotAuthenticated);
      }
      var row := NewOpportunity(newId, input, user.value);
      if failure.Some? {
        return Err(StoreError(failure.value));
      }
      var inserted := Insert(rows, IdOf, row);
      if inserted.Err? {
        return Err(inserted.error);
      }
      rows := inserted.value;
      r := Ok(row);
    }

    /** `updateSalesFunnel`: writes the patch (with the derived net price) to the
        row with the id, or fails with "Бүртгэл олдсонгүй" when there is none. */
    method Update(id: string, patch: Patch, failure: Option<string>) returns (r: Result<Opportunity>)
      requires Valid()
      modifies this
      ensures Valid()
      ensures failure.Some? ==> r == Err(StoreError(failure.value)) && rows == old(rows)
      ensures failure.None? && !HasId(old(rows), IdOf, id) ==>
                r == Err(NotFound(RecordNotFound)) && rows == old(rows)
      ensures failure.None? && HasId(old(rows), IdOf, id) ==>
                rows == UpdateWhere(old(rows), IdOf, id, o => Apply(o, UpdatePayload(patch)))
                && r == Ok(Apply(SelectById(old(rows), IdOf, id, RecordNotFound).value, UpdatePayload(patch)))
    {
      if failure.Some? {
        return Err(StoreError(failure.value));
      }
      var payload := UpdatePayload(patch);
      var f := o => Apply(o, payload);
      var found := SelectById(rows, IdOf, id, RecordNotFound);
      if found.Err? {
        return Err(NotFound(RecordNotFound));
      }
      UpdateWhereKeepsIds(rows, IdOf, id, f);
      UpdateWhereSelect(rows, IdOf, id, f, RecordNotFound);
      rows := UpdateWhere(rows, IdOf, id, f);
      r := Ok(f(found.value));
    }

    /** `updateSalesFunnelStage`: writes the stage and its progress to the row
        with the id, or fails with "Record not found" when there is none. */
    method UpdateStage(id: string, stage: string, failure: Option<string>) returns (r: Result<Opportunity>)
      requires Valid()
      modifies this
      ensures Valid()
      ensures failure.Some? ==> r == Err(StoreError(failure.value)) && rows == old(rows)
      ensures failure.None? && !HasId(old(rows), IdOf, id) ==>
                r == Err(NotFound("Record not found")) && rows == old(rows)
      ensures failure.None? && HasId(old(rows), IdOf, id) ==>
                rows == UpdateWhere(old(rows), IdOf, id, o => StageChange(o, stage))
                && r == Ok(StageChange(SelectById(old(rows), IdOf, id, RecordNotFound).value, stage))
    {
      if failure.Some? {
        return Err(StoreError(failure.value));
      }
      var f := o => StageChange(o, stage);
      var found := SelectById(rows, IdOf, id, RecordNotFound);
      if found.Err? {
        return Err(NotFound("Record not found"));
      }
      UpdateWhereKeepsIds(rows, IdOf, id, f);
      rows := UpdateWhere(rows, IdOf, id, f);
      r := Ok(f(found.value));
    }

    /** `deleteSalesFunnel`: removes the row with the id; deleting a missing id is not an error. */
    method Delete(id: string, failure: Option<string>) returns (r: Result<()>)
      requires Valid()
      modifies this
      ensures Valid()
      ensures failure.Some? ==> r == Err(StoreError(failure.value)) && rows == old(rows)
      ensures failure.None? ==> r == Ok(()) && rows == DeleteWhere(old(rows), IdOf, id)
    {
      if failure.Some? {
        return Err(StoreError(failure.value));
      }
      FilterKeepsIds(rows, IdOf, Not(IdIs(IdOf, id)));
      rows := DeleteWhere(rows, IdOf, id);
      r := Ok(());
    }

    /** `getSalesFunnelByStage`: the rows sorted into the six stage lists (Cold,
        Warm, Hot, Won, Closed, Lost), each in query order; a row whose stage is
        none of the six is dropped. */
    method GetByStage(failure: Option<string>) returns (r: Result<seq<seq<Opportunity>>>)
      ensures failure.Some? ==> r == Err(StoreError(failure.value))
      ensures failure.None? ==> r.Ok? && |r.value| == 6
      ensures r.Ok? ==> forall k :: 0 <= k < 6 ==> r.value[k] == Filter(rows, KeyIs(StageOf, StageNames[k]))
    {
      if failure.Some? {
        return Err(StoreError(failure.value));
      }
      var grouped: seq<seq<Opportunity>> := [[], [], [], [], [], []];
      var i := 0;
      while i < |rows|
        invariant 0 <= i <= |rows| && |grouped| == 6
        invariant forall k :: 0 <= k < 6 ==> grouped[k] == Filter(rows[..i], KeyIs(StageOf, StageNames[k]))
      {
        var item := rows[i];
        assert rows[..i + 1][..i] == rows[..i];
        forall m | 0 <= m < 6
          ensures Filter(rows[..i + 1], KeyIs(StageOf, StageNames[m]))
                  == Filter(rows[..i], KeyIs(StageOf, StageNames[m])) + (if item.stage == StageNames[m] then [item] else [])
        {
          assert KeyIs(StageOf, StageNames[m])(item) == (item.stage == StageNames[m]);
        }
        var k := 0;
        while k < 6 && StageNames[k] != item.stage
          invariant 0 <= k <= 6
          invariant forall m :: 0 <= m < k ==> StageNames[m] != item.stage
        {
          k := k + 1;
        }
        if k < 6 {
          grouped := grouped[k := grouped[k] + [item]];
        }
        i := i + 1;
      }
      assert rows[..i] == rows;
      r := Ok(grouped);
    }
  }

  /** A row of a page is a row of the listing it was cut from. */
  lemma PageMember<R>(rows: seq<R>, limit: Option<nat>, offset: Option<nat>, k: nat)
    requires k < |Page(rows, limit, offset)|
    ensures Page(rows, limit, offset)[k] in rows
  {
    PageRange(rows, limit, offset);
  }

  /** The six stage lists hold, between them, exactly the rows whose stage is one
      of the six: none is counted twice and none is lost. */
  lemma ByStageCovers(rows: seq<Opportunity>)
    ensures CountEach(rows, StageOf, StageNames) == Count(rows, KeyAmong(StageOf, StageNames))
  {
    StageTable();
    CountEachPartition(rows, StageOf, StageNames);
  }
}
