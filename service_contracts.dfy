/** `src/lib/actions/service-contracts.ts`: the server actions over the
    `service_contracts` table. */
module ServiceContracts {
  import opened Common
  import opened Seqs
  import opened Calendar
  import opened Store
  import opened ServiceContractSchema

  /** A row of `service_contracts` (the database-maintained `updated_at` is left out). */
  datatype Contract = Contract(
    id: string,
    clientName: string,
    contractInfo: Option<string>,
    stage: string,
    price: Option<int>,
    priceWithoutVat: Option<real>,
    paymentPercentage: Option<real>,
    yearlyPayment: Option<int>,
    createdDate: Option<Date>,
    closeDate: Option<Date>,
    teamMember: Option<string>,
    progressToWon: Option<real>,
    progressNotes: Option<string>,
    status: Option<string>,
    remarks: Option<string>,
    createdBy: Option<string>)

  function IdOf(c: Contract): string
  {
    c.id
  }

  /** The form fields a row carries. */
  function FormOf(c: Contract): Form
  {
    Form(c.clientName, c.contractInfo, c.stage, c.price, c.paymentPercentage, c.yearlyPayment,
         c.createdDate, c.closeDate, c.progressNotes, c.status, c.remarks)
  }

  /** The row `createServiceContract` inserts: the form's fields, the price net
      of VAT and the creating user. */
  function NewContract(id: string, input: Form, user: string): (c: Contract)
    ensures c.id == id && FormOf(c) == input
    ensures c.priceWithoutVat == PriceWithoutVat(input.price)
    ensures c.createdBy == Some(user)
    ensures c.teamMember.None? && c.progressToWon.None?
  {
    Contract(id, input.clientName, input.contractInfo, input.stage, input.price, PriceWithoutVat(input.price),
             input.paymentPercentage, input.yearlyPayment, input.createdDate, input.closeDate,
             None, None, input.progressNotes, input.status, input.remarks, Some(user))
  }

  /** A partial update (`ServiceContractUpdate`): None leaves a column alone,
      Some(v) writes v (Some(None) writes null). */
  datatype Patch = Patch(
    clientName: Option<string>,
    contractInfo: Option<Option<string>>,
    stage: Option<string>,
    price: Option<Option<int>>,
    priceWithoutVat: Option<Option<real>>,
    paymentPercentage: Option<Option<real>>,
    yearlyPayment: Option<Option<int>>,
    createdDate: Option<Option<Date>>,
    closeDate: Option<Option<Date>>,
    teamMember: Option<Option<string>>,
    progressToWon: Option<Option<real>>,
    progressNotes: Option<Option<string>>,
    status: Option<Option<string>>,
    remarks: Option<Option<string>>,
    createdBy: Option<Option<string>>)

  function Pick<T>(given: Option<T>, current: T): T
  {
    if given.Some? then given.value else current
  }

  /** The row after the update writes the patch's columns. */
  function Apply(c: Contract, p: Patch): Contract
  {
    Contract(c.id, Pick(p.clientName, c.clientName), Pick(p.contractInfo, c.contractInfo), Pick(p.stage, c.stage),
             Pick(p.price, c.price), Pick(p.priceWithoutVat, c.priceWithoutVat),
             Pick(p.paymentPercentage, c.paymentPercentage), Pick(p.yearlyPayment, c.yearlyPayment),
             Pick(p.createdDate, c.createdDate), Pick(p.closeDate, c.closeDate),
             Pick(p.teamMember, c.teamMember), Pick(p.progressToWon, c.progressToWon),
             Pick(p.progressNotes, c.progressNotes), Pick(p.status, c.status), Pick(p.remarks, c.remarks),
             Pick(p.createdBy, c.createdBy))
  }

  /** Is the patch's price given, non-null and non-zero? */
  predicate PriceTruthy(p: Patch)
  {
    p.price.Some? && Truthy(p.price.value)
  }

  /** What `updateServiceContract` sends: the input, plus the price net of VAT
      when the input's price is truthy. */
  function UpdatePayload(p: Patch): (q: Patch)
    ensures PriceTruthy(p) ==> q.priceWithoutVat == Some(PriceWithoutVat(p.price.value))
    ensures !PriceTruthy(p) ==> q == p
    ensures q.(priceWithoutVat := p.priceWithoutVat) == p
  {
    if PriceTruthy(p) then p.(priceWithoutVat := Some(PriceWithoutVat(p.price.value))) else p
  }

  /** An update with a truthy price stores the matching net price; any other
      update leaves the stored net price as the patch and the row had it. */
  lemma UpdateNetPrice(c: Contract, p: Patch)
    ensures PriceTruthy(p) ==>
              Apply(c, UpdatePayload(p)).priceWithoutVat == PriceWithoutVat(Apply(c, UpdatePayload(p)).price)
    ensures !PriceTruthy(p) ==> Apply(c, UpdatePayload(p)).priceWithoutVat == Pick(p.priceWithoutVat, c.priceWithoutVat)
    ensures Apply(c, UpdatePayload(p)).id == c.id
  {
  }

  /** The filters of `getServiceContracts` (the text search is left to the database). */
  datatype ListOptions = ListOptions(stage: Option<string>, limit: Option<nat>, offset: Option<nat>)

  function Matches(opts: ListOptions): Contract -> bool
  {
    (c: Contract) => TruthyText(opts.stage) ==> c.stage == opts.stage.value
  }

  /** The `service_contracts` table. */
  class ServiceContractTable {
    var rows: seq<Contract>

    predicate Valid()
      reads this
    {
      UniqueIds(rows, IdOf)
    }

    constructor ()
      ensures rows == [] && Valid()
    {
      rows := [];
    }

    /** `getServiceContracts`: the requested page of the rows of the given stage,
        and how many rows there are of that stage. */
    function GetServiceContracts(opts: ListOptions, failure: Option<string>): (r: Result<Listing<Contract>>)
      reads this
      ensures failure.Some? <==> r.Err?
      ensures r.Err? ==> r.error == StoreError(failure.value)
      ensures r.Ok? ==> r.value.count == Count(rows, Matches(opts))
      ensures r.Ok? ==> r.value.data == Page(Filter(rows, Matches(opts)), opts.limit, opts.offset)
      ensures r.Ok? && TruthyText(opts.stage) ==>
                forall k :: 0 <= k < |r.value.data| ==> r.value.data[k].stage == opts.stage.value
    {
      if failure.Some? then Err(StoreError(failure.value))
      else
        var selected := Filter(rows, Matches(opts));
        var page := Page(selected, opts.limit, opts.offset);
        assert forall k :: 0 <= k < |page| ==> Matches(opts)(page[k]) by {
          forall k | 0 <= k < |page| ensures Matches(opts)(page[k]) {
            PageRange(selected, opts.limit, opts.offset);
            if Given(opts.offset) {
              assert page[k] == selected[opts.offset.value + k];
            } else if Given(opts.limit) {
              assert page[k] == selected[k];
            }
          }
        }
        Ok(Listing(page, |selected|))
    }

    /** `getServiceContractById`: the row with the id, or "Гэрээ олдсонгүй". */
    function GetById(id: string, failure: Option<string>): (r: Result<Contract>)
      reads this
      ensures failure.Some? ==> r == Err(StoreError(failure.value))
      ensures failure.None? ==> (r.Ok? <==> HasId(rows, IdOf, id))
      ensures r.Ok? ==> r.value in rows && r.value.id == id
      ensures failure.None? && r.Err? ==> r.error == NotFound(ContractNotFound)
    {
      if failure.Some? then Err(StoreError(failure.value)) else SelectById(rows, IdOf, id, ContractNotFound)
    }

    /** `createServiceContract`: refuses without a signed-in user, otherwise
        inserts the new row stamped with the user. */
    method Create(user: Option<string>, input: Form, newId: string, failure: Option<string>) returns (r: Result<Contract>)
      requires Valid()
      modifies this
      ensures Valid()
      ensures user.None? ==> r == Err(NotAuthenticated) && rows == old(rows)
      ensures user.Some? && failure.Some? ==> r == Err(StoreError(failure.value)) && rows == old(rows)
      ensures user.Some? && failure.None? && HasId(old(rows), IdOf, newId) ==>
                r == Err(StoreError(DuplicateKey)) && rows == old(rows)
      ensures user.Some? && failure.None? && !HasId(old(rows), IdOf, newId) ==>
                r == Ok(NewContract(newId, input, user.value)) && rows == old(rows) + [r.value]
    {
      if user.None? {
        return Err(NotAuthenticated);
      }
      var row := NewContract(newId, input, user.value);
      if failure.Some? {
        return Err(StoreError(failure.value));
      }
      var inserted := Insert(rows, IdOf, row);
      if inserted.Err? {
        return Err(inserted.error);
      }
      rows := inserted.value;
      r := Ok(row);
    }

    /** `updateServiceContract`: writes the patch (with the derived net price) to
        the row with the id, or fails with "Гэрээ олдсонгүй" when there is none. */
    method Update(id: string, patch: Patch, failure: Option<string>) returns (r: Result<Contract>)
      requires Valid()
      modifies this
      ensures Valid()
      ensures failure.Some? ==> r == Err(StoreError(failure.value)) && rows == old(rows)
      ensures failure.None? && !HasId(old(rows), IdOf, id) ==>
                r == Err(NotFound(ContractNotFound)) && rows == old(rows)
      ensures failure.None? && HasId(old(rows), IdOf, id) ==>
                rows == UpdateWhere(old(rows), IdOf, id, c => Apply(c, UpdatePayload(patch)))
                && r == Ok(Apply(SelectById(old(rows), IdOf, id, ContractNotFound).value, UpdatePayload(patch)))
    {
      if failure.Some? {
        return Err(StoreError(failure.value));
      }
      var payload := UpdatePayload(patch);
      var f := c => Apply(c, payload);
      var found := SelectById(rows, IdOf, id, ContractNotFound);
      if found.Err? {
        return Err(NotFound(ContractNotFound));
      }
      UpdateWhereKeepsIds(rows, IdOf, id, f);
      UpdateWhereSelect(rows, IdOf, id, f, ContractNotFound);
      rows := UpdateWhere(rows, IdOf, id, f);
      r := Ok(f(found.value));
    }

    /** `deleteServiceContract`: refuses without a signed-in user before touching
        the table; otherwise deletes the row with the id when the row-level
        policy lets the user (`permitted`), and fails with "no permission or not
        found" when the delete removed no row. */
    method Delete(user: Option<string>, id: string, permitted: bool, failure: Option<string>) returns (r: Result<()>)
      requires Valid()
      modifies this
      ensures Valid()
      ensures user.None? ==> r == Err(NotAuthenticated) && rows == old(rows)
      ensures user.Some? && failure.Some? ==> r == Err(StoreError(failure.value)) && rows == old(rows)
      ensures user.Some? && failure.None? && !(permitted && HasId(old(rows), IdOf, id)) ==>
                r == Err(NoPermissionOrNotFound) && rows == old(rows)
      ensures user.Some? && failure.None? && permitted && HasId(old(rows), IdOf, id) ==>
                r == Ok(()) && rows == DeleteWhere(old(rows), IdOf, id) && |rows| == |old(rows)| - 1
    {
      if user.None? {
        return Err(NotAuthenticated);
      }
      if failure.Some? {
        return Err(StoreError(failure.value));
      }
      DeleteCount(rows, IdOf, id);
      var removed := if permitted then Count(rows, IdIs(IdOf, id)) else 0;
      if removed == 0 {
        return Err(NoPermissionOrNotFound);
      }
      FilterKeepsIds(rows, IdOf, Not(IdIs(IdOf, id)));
      rows := DeleteWhere(rows, IdOf, id);
      r := Ok(());
    }
  }
}
