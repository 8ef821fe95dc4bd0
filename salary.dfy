/** `src/lib/actions/salary.ts`: the server actions over the `salaries` table,
    with the net-salary preview of `src/components/salary/form.tsx`. */
module Salary {
  import opened Common
  import opened Seqs
  import opened Groups
  import opened Calendar
  import opened Store
  import opened SalarySchema

  /** A row of `salaries` (the database-maintained timestamps are left out). */
  datatype Salary = Salary(
    id: string,
    employeeName: string,
    position: Option<string>,
    baseSalary: int,
    bonus: Option<int>,
    deductions: Option<int>,
    netSalary: Option<int>,
    paymentDate: Date,
    paymentMonth: string,
    paymentStatus: string,
    notes: Option<string>,
    createdBy: Option<string>)

  function IdOf(s: Salary): string
  {
    s.id
  }

  /** The row `createSalary` inserts: the form's fields and the creating user.
      The form sends no net salary; the row starts without one. */
  function NewSalary(id: string, input: Form, user: string): (s: Salary)
    requires input.paymentDate.Some?
    ensures s.id == id && s.createdBy == Some(user) && s.netSalary.None?
    ensures Form(s.employeeName, s.position, s.baseSalary, s.bonus, s.deductions, Some(s.paymentDate),
                 s.paymentMonth, s.paymentStatus, s.notes) == input
  {
    Salary(id, input.employeeName, input.position, input.baseSalary, input.bonus, input.deductions, None,
           input.paymentDate.value, input.paymentMonth, input.paymentStatus, input.notes, Some(user))
  }

  /** The form's net-salary preview: base plus bonus minus deductions, an empty
      field counting as 0. */
  function NetPreview(baseSalary: Option<int>, bonus: Option<int>, deductions: Option<int>): (n: int)
    ensures n + OrZero(deductions) == OrZero(baseSalary) + OrZero(bonus)
    ensures !Truthy(bonus) && !Truthy(deductions) ==> n == OrZero(baseSalary)
  {
    OrZero(baseSalary) + OrZero(bonus) - OrZero(deductions)
  }

  /** A larger bonus never lowers the preview and larger deductions never raise it. */
  lemma NetPreviewMonotone(b: Option<int>, x: int, y: int, d: int, e: int)
    requires x <= y && d <= e
    ensures NetPreview(b, Some(x), Some(e)) <= NetPreview(b, Some(y), Some(d))
  {
  }

  /** A partial update (`SalaryUpdate`): None leaves a column alone, Some(v) writes v. */
  datatype Patch = Patch(
    employeeName: Option<string>,
    position: Option<Option<string>>,
    baseSalary: Option<int>,
    bonus: Option<Option<int>>,
    deductions: Option<Option<int>>,
    netSalary: Option<Option<int>>,
    paymentDate: Option<Date>,
    paymentMonth: Option<string>,
    paymentStatus: Option<string>,
    notes: Option<Option<string>>)

  function Pick<T>(given: Option<T>, current: T): T
  {
    if given.Some? then given.value else current
  }

  /** The row after `updateSalary` writes the patch's columns. */
  function Apply(s: Salary, p: Patch): (r: Salary)
    ensures r.id == s.id && r.createdBy == s.createdBy
  {
    Salary(s.id, Pick(p.employeeName, s.employeeName), Pick(p.position, s.position),
           Pick(p.baseSalary, s.baseSalary), Pick(p.bonus, s.bonus), Pick(p.deductions, s.deductions),
           Pick(p.netSalary, s.netSalary), Pick(p.paymentDate, s.paymentDate), Pick(p.paymentMonth, s.paymentMonth),
           Pick(p.paymentStatus, s.paymentStatus), Pick(p.notes, s.notes), s.createdBy)
  }

  /** The patch `updateSalaryStatus` sends: the status and nothing else. */
  function StatusPatch(status: string): Patch
  {
    Patch(None, None, None, None, None, None, None, None, Some(status), None)
  }

  /** A status update writes the status and leaves every other column as it
      was; repeating it changes nothing more. */
  lemma StatusPatchOnly(s: Salary, status: string)
    ensures Apply(s, StatusPatch(status)).paymentStatus == status
    ensures Apply(s, StatusPatch(status)).(paymentStatus := s.paymentStatus) == s
    ensures Apply(Apply(s, StatusPatch(status)), StatusPatch(status)) == Apply(s, StatusPatch(status))
  {
  }

  /** The filters of `getSalaries` (the text search is left to the database). */
  datatype ListOptions = ListOptions(
    status: Option<string>,
    limit: Option<nat>,
    offset: Option<nat>,
    paymentMonth: Option<string>)

  /** The month filter of `getSalaries` and `getSalarySummary`: when a month is
      given, only the rows of that payment month. */
  function InMonth(month: Option<string>): Salary -> bool
  {
    (s: Salary) => TruthyText(month) ==> s.paymentMonth == month.value
  }

  function Matches(opts: ListOptions): Salary -> bool
  {
    (s: Salary) => (TruthyText(opts.status) ==> s.paymentStatus == opts.status.value)
                && InMonth(opts.paymentMonth)(s)
  }

  /** `s.payment_status || 'Pending'`. */
  function StatusOf(s: Salary): string
  {
    if s.paymentStatus == "" then "Pending" else s.paymentStatus
  }

  /** One status's line of the summary. */
  datatype StatusTally = StatusTally(count: int, amount: int)

  function AddSalary(t: StatusTally, s: Salary): StatusTally
  {
    StatusTally(t.count + 1, t.amount + NetOf(s))
  }

  function TallyCount(t: StatusTally): int { t.count }
  function TallyAmount(t: StatusTally): int { t.amount }
  function One(s: Salary): int { 1 }
  function BaseOf(s: Salary): int { s.baseSalary }
  function BonusOf(s: Salary): int { OrZero(s.bonus) }
  function DeductionsOf(s: Salary): int { OrZero(s.deductions) }
  function NetOf(s: Salary): int { OrZero(s.netSalary) }

  /** What `getSalarySummary` returns. */
  datatype Summary = Summary(
    totalBaseSalary: int,
    totalBonus: int,
    totalDeductions: int,
    totalNetSalary: int,
    byStatus: seq<(string, StatusTally)>,
    count: nat)

  /** `getSalarySummary` over the selected rows: the four totals, one line per
      status (an empty one as 'Pending') and the count. The lines' counts add
      up to the count and their amounts to the net total. */
  function Summarize(rows: seq<Salary>): (r: Summary)
    ensures r.count == |rows|
    ensures r.totalBaseSalary == SumBy(rows, BaseOf) && r.totalBonus == SumBy(rows, BonusOf)
    ensures r.totalDeductions == SumBy(rows, DeductionsOf) && r.totalNetSalary == SumBy(rows, NetOf)
    ensures SumBy(r.byStatus, Weigh(TallyCount)) == r.count
    ensures SumBy(r.byStatus, Weigh(TallyAmount)) == r.totalNetSalary
    ensures Distinct(Keys(r.byStatus))
    ensures forall i :: 0 <= i < |rows| ==> StatusOf(rows[i]) in Keys(r.byStatus)
    ensures "" !in Keys(r.byStatus)
  {
    var zero := StatusTally(0, 0);
    var byStatus := GroupBy(rows, StatusOf, zero, AddSalary);
    GroupBySum(rows, StatusOf, zero, AddSalary, TallyCount, One);
    SumByOnes(rows, One);
    GroupBySum(rows, StatusOf, zero, AddSalary, TallyAmount, NetOf);
    GroupByKeys(rows, StatusOf, zero, AddSalary);
    Summary(SumBy(rows, BaseOf), SumBy(rows, BonusOf), SumBy(rows, DeductionsOf), SumBy(rows, NetOf),
            byStatus, |rows|)
  }

  /** A status's line counts exactly the rows of that status and adds up their net salaries. */
  lemma SummaryLine(rows: seq<Salary>, status: string)
    requires Count(rows, KeyIs(StatusOf, status)) > 0
    ensures var mine := Filter(rows, KeyIs(StatusOf, status));
            Lookup(Summarize(rows).byStatus, status) == Some(StatusTally(|mine|, SumBy(mine, NetOf)))
  {
    var mine := Filter(rows, KeyIs(StatusOf, status));
    GroupByLookup(rows, StatusOf, StatusTally(0, 0), AddSalary, status);
    FoldProjection(mine, StatusTally(0, 0), AddSalary, TallyCount, One);
    SumByOnes(mine, One);
    FoldProjection(mine, StatusTally(0, 0), AddSalary, TallyAmount, NetOf);
  }

  /** The `salaries` table. */
  class SalaryTable {
    var rows: seq<Salary>

    predicate Valid()
      reads this
    {
      UniqueIds(rows, IdOf)
    }

    constructor ()
      ensures rows == [] && Valid()
    {
      rows := [];
    }

    /** `getSalaries`: the requested page of the rows of the status and month,
        and how many rows pass those filters. */
    function GetSalaries(opts: ListOptions, failure: Option<string>): (r: Result<Listing<Salary>>)
      reads this
      ensures failure.Some? <==> r.Err?
      ensures r.Err? ==> r.error == StoreError(failure.value)
      ensures r.Ok? ==> r.value.count == Count(rows, Matches(opts))
      ensures r.Ok? ==> r.value.data == Page(Filter(rows, Matches(opts)), opts.limit, opts.offset)
      ensures r.Ok? && TruthyText(opts.paymentMonth) ==>
                forall k :: 0 <= k < |r.value.data| ==> r.value.data[k].paymentMonth == opts.paymentMonth.value
    {
      if failure.Some? then Err(StoreError(failure.value))
      else
        var page := Page(Filter(rows, Matches(opts)), opts.limit, opts.offset);
        PageOfFilter(rows, Matches(opts), opts.limit, opts.offset);
        forall k | 0 <= k < |page| && TruthyText(opts.paymentMonth)
          ensures page[k].paymentMonth == opts.paymentMonth.value
        {
          assert Matches(opts)(page[k]);
          assert InMonth(opts.paymentMonth)(page[k]);
        }
        Ok(Listing(page, Count(rows, Matches(opts))))
    }

    /** `getSalaryById`: the row with the id, or "Бүртгэл олдсонгүй". */
    function GetById(id: string, failure: Option<string>): (r: Result<Salary>)
      reads this
      ensures failure.Some? ==> r == Err(StoreError(failure.value))
      ensures failure.None? ==> (r.Ok? <==> HasId(rows, IdOf, id))
      ensures r.Ok? ==> r.value in rows && r.value.id == id
      ensures failure.None? && r.Err? ==> r.error == NotFound(RecordNotFound)
    {
      if failure.Some? then Err(StoreError(failure.value)) else SelectById(rows, IdOf, id, RecordNotFound)
    }

    /** `getSalarySummary`: the summary of the rows of the month, or of every row without one. */
    function GetSalarySummary(month: Option<string>, failure: Option<string>): (r: Result<Summary>)
      reads this
      ensures failure.Some? ==> r == Err(StoreError(failure.value))
      ensures failure.None? ==> r.Ok? && r.value.count == Count(rows, InMonth(month))
      ensures r.Ok? ==> r.value == Summarize(Filter(rows, InMonth(month)))
    {
      if failure.Some? then Err(StoreError(failure.value)) else Ok(Summarize(Filter(rows, InMonth(month))))
    }

    /** `createSalary`: refuses without a signed-in user, otherwise inserts the
        new row stamped with the user; the database refuses an empty date. */
    method Create(user: Option<string>, input: Form, newId: string, failure: Option<string>) returns (r: Result<Salary>)
      requires Valid()
      modifies this
      ensures Valid()
      ensures user.None? ==> r == Err(NotAuthenticated) && rows == old(rows)
      ensures user.Some? && failure.Some? ==> r == Err(StoreError(failure.value)) && rows == old(rows)
      ensures user.Some? && failure.None? && input.paymentDate.None? ==>
                r == Err(StoreError(InvalidDate)) && rows == old(rows)
      ensures user.Some? && failure.None? && input.paymentDate.Some? && HasId(old(rows), IdOf, newId) ==>
                r == Err(StoreError(DuplicateKey)) && rows == old(rows)
      ensures user.Some? && failure.None? && input.paymentDate.Some? && !HasId(old(rows), IdOf, newId) ==>
                r == Ok(NewSalary(newId, input, user.value)) && rows == old(rows) + [r.value]
    {
      if user.None? {
        return Err(NotAuthenticated);
      }
      if failure.Some? {
        return Err(StoreError(failure.value));
      }
      if input.paymentDate.None? {
        return Err(StoreError(InvalidDate));
      }
      var row := NewSalary(newId, input, user.value);
      var inserted := Insert(rows, IdOf, row);
      if inserted.Err? {
        return Err(inserted.error);
      }
      rows := inserted.value;
      r := Ok(row);
    }

    /** `updateSalary` (and, with the status patch, `updateSalaryStatus`):
        writes the patch to the row with the id, or fails with
        "Бүртгэл олдсонгүй" when there is none. */
    method Update(id: string, patch: Patch, failure: Option<string>) returns (r: Result<Salary>)
      requires Valid()
      modifies this
      ensures Valid()
      ensures failure.Some? ==> r == Err(StoreError(failure.value)) && rows == old(rows)
      ensures failure.None? && !HasId(old(rows), IdOf, id) ==>
                r == Err(NotFound(RecordNotFound)) && rows == old(rows)
      ensures failure.None? && HasId(old(rows), IdOf, id) ==>
                rows == UpdateWhere(old(rows), IdOf, id, s => Apply(s, patch))
                && r == Ok(Apply(SelectById(old(rows), IdOf, id, RecordNotFound).value, patch))
    {
      if failure.Some? {
        return Err(StoreError(failure.value));
      }
      var f := s => Apply(s, patch);
      var found := SelectById(rows, IdOf, id, RecordNotFound);
      if found.Err? {
        return Err(NotFound(RecordNotFound));
      }
      UpdateWhereKeepsIds(rows, IdOf, id, f);
      UpdateWhereSelect(rows, IdOf, id, f, RecordNotFound);
      rows := UpdateWhere(rows, IdOf, id, f);
      r := Ok(f(found.value));
    }

    /** `updateSalaryStatus`: writes the status alone to the row with the id, or
        fails with "Бүртгэл олдсонгүй" when there is none. */
    method UpdateStatus(id: string, status: string, failure: Option<string>) returns (r: Result<Salary>)
      requires Valid()
      modifies this
      ensures Valid()
      ensures failure.Some? ==> r == Err(StoreError(failure.value)) && rows == old(rows)
      ensures failure.None? && !HasId(old(rows), IdOf, id) ==>
                r == Err(NotFound(RecordNotFound)) && rows == old(rows)
      ensures failure.None? && HasId(old(rows), IdOf, id) ==>
                var before := SelectById(old(rows), IdOf, id, RecordNotFound).value;
                r == Ok(before.(paymentStatus := status))
                && |rows| == |old(rows)|
                && forall i :: 0 <= i < |rows| ==>
                     rows[i] == if old(rows)[i].id == id then old(rows)[i].(paymentStatus := status) else old(rows)[i]
    {
      r := Update(id, StatusPatch(status), failure);
    }

    /** `deleteSalary`: removes the row with the id; deleting a missing id is not an error. */
    method Delete(id: string, failure: Option<string>) returns (r: Result<()>)
      requires Valid()
      modifies this
      ensures Valid()
      ensures failure.Some? ==> r == Err(StoreError(failure.value)) && rows == old(rows)
      ensures failure.None? ==> r == Ok(()) && rows == DeleteWhere(old(rows), IdOf, id)
    {
      if failure.Some? {
        return Err(StoreError(failure.value));
      }
      FilterKeepsIds(rows, IdOf, Not(IdIs(IdOf, id)));
      rows := DeleteWhere(rows, IdOf, id);
      r := Ok(());
    }
  }

  /** The summary for a month counts exactly the rows the unpaged listing for
      that month (any status) counts. */
  lemma SummaryMatchesListing(t: SalaryTable, month: Option<string>)
    ensures t.GetSalarySummary(month, None).value.count
            == t.GetSalaries(ListOptions(None, None, None, month), None).value.count
  {
    var opts := ListOptions(None, None, None, month);
    assert forall s :: Matches(opts)(s) == InMonth(month)(s);
    FilterCongruent(t.rows, Matches(opts), InMonth(month));
  }
}
