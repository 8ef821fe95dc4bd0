/** `src/lib/actions/expenses.ts`: the server actions over the `expenses` table. */
module Expenses {
  import opened Common
  import opened Seqs
  import opened Groups
  import opened Calendar
  import opened Store
  import opened ExpenseSchema

  /** A row of `expenses` (the database-maintained timestamps are left out). */
  datatype Expense = Expense(
    id: string,
    description: string,
    category: string,
    amount: int,
    expenseDate: Date,
    vendor: Option<string>,
    receiptNumber: Option<string>,
    notes: Option<string>,
    createdBy: Option<string>)

  function IdOf(e: Expense): string
  {
    e.id
  }

  /** The row `createExpense` inserts: the form's fields and the creating user. */
  function NewExpense(id: string, input: Form, user: string): (e: Expense)
    requires input.expenseDate.Some?
    ensures e.id == id && e.createdBy == Some(user)
    ensures Form(e.description, e.category, e.amount, Some(e.expenseDate), e.vendor, e.receiptNumber, e.notes) == input
  {
    Expense(id, input.description, input.category, input.amount, input.expenseDate.value,
            input.vendor, input.receiptNumber, input.notes, Some(user))
  }

  /** A partial update (`ExpenseUpdate`): None leaves a column alone, Some(v) writes v. */
  datatype Patch = Patch(
    description: Option<string>,
    category: Option<string>,
    amount: Option<int>,
    expenseDate: Option<Date>,
    vendor: Option<Option<string>>,
    receiptNumber: Option<Option<string>>,
    notes: Option<Option<string>>)

  function Pick<T>(given: Option<T>, current: T): T
  {
    if given.Some? then given.value else current
  }

  /** The row after `updateExpense` writes the patch's columns. */
  function Apply(e: Expense, p: Patch): (r: Expense)
    ensures r.id == e.id && r.createdBy == e.createdBy
  {
    Expense(e.id, Pick(p.description, e.description), Pick(p.category, e.category), Pick(p.amount, e.amount),
            Pick(p.expenseDate, e.expenseDate), Pick(p.vendor, e.vendor), Pick(p.receiptNumber, e.receiptNumber),
            Pick(p.notes, e.notes), e.createdBy)
  }

  /** The date bounds of `getExpenses` and `getExpensesSummary`: an expense
      dated on or after the start and on or before the end, for whichever
      bounds are given (None for an absent or empty bound). */
  function InRange(start: Option<Date>, end: Option<Date>): Expense -> bool
  {
    (e: Expense) => (start.Some? ==> NotAfter(start.value, e.expenseDate))
                 && (end.Some? ==> NotAfter(e.expenseDate, end.value))
  }

  /** A bound left out admits every date; with both bounds given, a start after
      the end admits none. */
  lemma InRangeBounds(e: Expense, start: Date, end: Date)
    ensures InRange(None, None)(e)
    ensures InRange(Some(start), Some(end))(e) ==> NotAfter(start, end)
    ensures !NotAfter(start, end) ==> !InRange(Some(start), Some(end))(e)
  {
    if InRange(Some(start), Some(end))(e) {
      NotAfterTransitive(start, e.expenseDate, end);
    }
  }

  /** The filters of `getExpenses` (the text search is left to the database). */
  datatype ListOptions = ListOptions(
    category: Option<string>,
    limit: Option<nat>,
    offset: Option<nat>,
    startDate: Option<Date>,
    endDate: Option<Date>)

  function Matches(opts: ListOptions): Expense -> bool
  {
    (e: Expense) => (TruthyText(opts.category) ==> e.category == opts.category.value)
                 && InRange(opts.startDate, opts.endDate)(e)
  }

  function CategoryOf(e: Expense): string
  {
    e.category
  }

  /** `e.amount || 0`: the amount column is never null. */
  function AmountOf(e: Expense): int
  {
    e.amount
  }

  function AddAmount(total: int, e: Expense): int
  {
    total + AmountOf(e)
  }

  function Total(v: int): int
  {
    v
  }

  /** What `getExpensesSummary` returns. */
  datatype Summary = Summary(totalAmount: int, byCategory: seq<(string, int)>, count: nat)

  /** `getExpensesSummary` over the rows in range: the total, one line per
      category present that adds up that category's amounts, and the count.
      The lines add up to the total. */
  function Summarize(rows: seq<Expense>): (r: Summary)
    ensures r.totalAmount == SumBy(rows, AmountOf) && r.count == |rows|
    ensures SumBy(r.byCategory, Weigh(Total)) == r.totalAmount
    ensures Distinct(Keys(r.byCategory))
    ensures forall i :: 0 <= i < |rows| ==> rows[i].category in Keys(r.byCategory)
    ensures forall c :: c in Keys(r.byCategory) ==> exists i :: 0 <= i < |rows| && rows[i].category == c
  {
    var byCategory := GroupBy(rows, CategoryOf, 0, AddAmount);
    GroupBySum(rows, CategoryOf, 0, AddAmount, Total, AmountOf);
    GroupByKeys(rows, CategoryOf, 0, AddAmount);
    Summary(SumBy(rows, AmountOf), byCategory, |rows|)
  }

  /** A category's line is the sum of exactly that category's amounts. */
  lemma SummaryLine(rows: seq<Expense>, cat: string)
    requires Count(rows, KeyIs(CategoryOf, cat)) > 0
    ensures Lookup(Summarize(rows).byCategory, cat) == Some(SumBy(Filter(rows, KeyIs(CategoryOf, cat)), AmountOf))
  {
    GroupByLookup(rows, CategoryOf, 0, AddAmount, cat);
    FoldProjection(Filter(rows, KeyIs(CategoryOf, cat)), 0, AddAmount, Total, AmountOf);
  }

  /** The `expenses` table. */
  class ExpenseTable {
    var rows: seq<Expense>

    predicate Valid()
      reads this
    {
      UniqueIds(rows, IdOf)
    }

    constructor ()
      ensures rows == [] && Valid()
    {
      rows := [];
    }

    /** `getExpenses`: the requested page of the rows of the category within the
        date range, and how many rows pass those filters. */
    function GetExpenses(opts: ListOptions, failure: Option<string>): (r: Result<Listing<Expense>>)
      reads this
      ensures failure.Some? <==> r.Err?
      ensures r.Err? ==> r.error == StoreError(failure.value)
      ensures r.Ok? ==> r.value.count == Count(rows, Matches(opts))
      ensures r.Ok? ==> r.value.data == Page(Filter(rows, Matches(opts)), opts.limit, opts.offset)
      ensures r.Ok? ==> forall k :: 0 <= k < |r.value.data| ==> InRange(opts.startDate, opts.endDate)(r.value.data[k])
    {
      if failure.Some? then Err(StoreError(failure.value))
      else
        var selected := Filter(rows, Matches(opts));
        var page := Page(selected, opts.limit, opts.offset);
        assert forall k :: 0 <= k < |page| ==> Matches(opts)(page[k]) by {
          forall k | 0 <= k < |page| ensures Matches(opts)(page[k]) {
            PageRange(selected, opts.limit, opts.offset);
            if Given(opts.offset) {
              assert page[k] == selected[opts.offset.value + k];
            } else if Given(opts.limit) {
              assert page[k] == selected[k];
            }
          }
        }
        Ok(Listing(page, |selected|))
    }

    /** `getExpenseById`: the row with the id, or "Бүртгэл олдсонгүй". */
    function GetById(id: string, failure: Option<string>): (r: Result<Expense>)
      reads this
      ensures failure.Some? ==> r == Err(StoreError(failure.value))
      ensures failure.None? ==> (r.Ok? <==> HasId(rows, IdOf, id))
      ensures r.Ok? ==> r.value in rows && r.value.id == id
      ensures failure.None? && r.Err? ==> r.error == NotFound(RecordNotFound)
    {
      if failure.Some? then Err(StoreError(failure.value)) else SelectById(rows, IdOf, id, RecordNotFound)
    }

    /** `getExpensesSummary`: the summary of the rows within the date range. */
    function GetExpensesSummary(start: Option<Date>, end: Option<Date>, failure: Option<string>): (r: Result<Summary>)
      reads this
      ensures failure.Some? ==> r == Err(StoreError(failure.value))
      ensures failure.None? ==> r.Ok? && r.value.count == Count(rows, InRange(start, end))
      ensures r.Ok? ==> r.value == Summarize(Filter(rows, InRange(start, end)))
    {
      if failure.Some? then Err(StoreError(failure.value)) else Ok(Summarize(Filter(rows, InRange(start, end))))
    }

    /** `createExpense`: refuses without a signed-in user, otherwise inserts the
        new row stamped with the user; the database refuses an empty date. */
    method Create(user: Option<string>, input: Form, newId: string, failure: Option<string>) returns (r: Result<Expense>)
      requires Valid()
      modifies this
      ensures Valid()
      ensures user.None? ==> r == Err(NotAuthenticated) && rows == old(rows)
      ensures user.Some? && failure.Some? ==> r == Err(StoreError(failure.value)) && rows == old(rows)
      ensures user.Some? && failure.None? && input.expenseDate.None? ==>
                r == Err(StoreError(InvalidDate)) && rows == old(rows)
      ensures user.Some? && failure.None? && input.expenseDate.Some? && HasId(old(rows), IdOf, newId) ==>
                r == Err(StoreError(DuplicateKey)) && rows == old(rows)
      ensures user.Some? && failure.None? && input.expenseDate.Some? && !HasId(old(rows), IdOf, newId) ==>
                r == Ok(NewExpense(newId, input, user.value)) && rows == old(rows) + [r.value]
    {
      if user.None? {
        return Err(NotAuthenticated);
      }
      if failure.Some? {
        return Err(StoreError(failure.value));
      }
      if input.expenseDate.None? {
        return Err(StoreError(InvalidDate));
      }
      var row := NewExpense(newId, input, user.value);
      var inserted := Insert(rows, IdOf, row);
      if inserted.Err? {
        return Err(inserted.error);
      }
      rows := inserted.value;
      r := Ok(row);
    }

    /** `updateExpense`: writes the patch to the row with the id, or fails with
        "Бүртгэл олдсонгүй" when there is none. */
    method Update(id: string, patch: Patch, failure: Option<string>) returns (r: Result<Expense>)
      requires Valid()
      modifies this
      ensures Valid()
      ensures failure.Some? ==> r == Err(StoreError(failure.value)) && rows == old(rows)
      ensures failure.None? && !HasId(old(rows), IdOf, id) ==>
                r == Err(NotFound(RecordNotFound)) && rows == old(rows)
      ensures failure.None? && HasId(old(rows), IdOf, id) ==>
                rows == UpdateWhere(old(rows), IdOf, id, e => Apply(e, patch))
                && r == Ok(Apply(SelectById(old(rows), IdOf, id, RecordNotFound).value, patch))
    {
      if failure.Some? {
        return Err(StoreError(failure.value));
      }
      var f := e => Apply(e, patch);
      var found := SelectById(rows, IdOf, id, RecordNotFound);
      if found.Err? {
        return Err(NotFound(RecordNotFound));
      }
      UpdateWhereKeepsIds(rows, IdOf, id, f);
      UpdateWhereSelect(rows, IdOf, id, f, RecordNotFound);
      rows := UpdateWhere(rows, IdOf, id, f);
      r := Ok(f(found.value));
    }

    /** `deleteExpense`: removes the row with the id; deleting a missing id is not an error. */
    method Delete(id: string, failure: Option<string>) returns (r: Result<()>)
      requires Valid()
      modifies this
      ensures Valid()
      ensures failure.Some? ==> r == Err(StoreError(failure.value)) && rows == old(rows)
      ensures failure.None? ==> r == Ok(()) && rows == DeleteWhere(old(rows), IdOf, id)
    {
      if failure.Some? {
        return Err(StoreError(failure.value));
      }
      FilterKeepsIds(rows, IdOf, Not(IdIs(IdOf, id)));
      rows := DeleteWhere(rows, IdOf, id);
      r := Ok(());
    }
  }

  /** The summary counts exactly the rows the unpaged, uncategorised listing
      over the same dates counts. */
  lemma SummaryMatchesListing(t: ExpenseTable, start: Option<Date>, end: Option<Date>)
    ensures t.GetExpensesSummary(start, end, None).value.count
            == t.GetExpenses(ListOptions(None, None, None, start, end), None).value.count
  {
    var opts := ListOptions(None, None, None, start, end);
    assert forall e :: Matches(opts)(e) == InRange(start, end)(e);
    FilterCongruent(t.rows, Matches(opts), InRange(start, end));
  }
}
