/** `src/lib/actions/stock.ts`: the server actions over the `stock` table, with
    the quantity-adjustment request of `src/components/stock/data-table.tsx`
    and the value preview of `src/components/stock/form.tsx`. */
module Stock {
  import opened Common
  import opened Seqs
  import opened Groups
  import opened Calendar
  import opened Store
  import opened StockSchema

  /** A row of `stock` (the database-maintained timestamps are left out). */
  datatype Item = Item(
    id: string,
    productName: string,
    sku: Option<string>,
    category: Option<string>,
    quantity: int,
    unitPrice: Option<int>,
    totalValue: Option<int>,
    minStockLevel: Option<int>,
    location: Option<string>,
    supplier: Option<string>,
    lastRestockDate: Option<Date>,
    notes: Option<string>,
    createdBy: Option<string>)

  function IdOf(s: Item): string
  {
    s.id
  }

  /** The form fields a row carries. */
  function FormOf(s: Item): Form
  {
    Form(s.productName, s.sku, s.category, s.quantity, s.unitPrice, s.minStockLevel,
         s.location, s.supplier, s.lastRestockDate, s.notes)
  }

  /** The row `createStock` inserts: the form's fields and the creating user.
      The form has no `total_value`; the row starts without one. */
  function NewItem(id: string, input: Form, user: string): (s: Item)
    ensures s.id == id && FormOf(s) == input
    ensures s.createdBy == Some(user) && s.totalValue.None?
  {
    Item(id, input.productName, input.sku, input.category, input.quantity, input.unitPrice, None,
         input.minStockLevel, input.location, input.supplier, input.lastRestockDate, input.notes, Some(user))
  }

  /** A partial update (`StockUpdate`): None leaves a column alone, Some(v) writes v. */
  datatype Patch = Patch(
    productName: Option<string>,
    sku: Option<Option<string>>,
    category: Option<Option<string>>,
    quantity: Option<int>,
    unitPrice: Option<Option<int>>,
    totalValue: Option<Option<int>>,
    minStockLevel: Option<Option<int>>,
    location: Option<Option<string>>,
    supplier: Option<Option<string>>,
    lastRestockDate: Option<Option<Date>>,
    notes: Option<Option<string>>)

  function Pick<T>(given: Option<T>, current: T): T
  {
    if given.Some? then given.value else current
  }

  /** The row after `updateStock` writes the patch's columns. */
  function Apply(s: Item, p: Patch): (r: Item)
    ensures r.id == s.id && r.createdBy == s.createdBy
  {
    Item(s.id, Pick(p.productName, s.productName), Pick(p.sku, s.sku), Pick(p.category, s.category),
         Pick(p.quantity, s.quantity), Pick(p.unitPrice, s.unitPrice), Pick(p.totalValue, s.totalValue),
         Pick(p.minStockLevel, s.minStockLevel), Pick(p.location, s.location), Pick(p.supplier, s.supplier),
         Pick(p.lastRestockDate, s.lastRestockDate), Pick(p.notes, s.notes), s.createdBy)
  }

  /** The row after a quantity adjustment by `change` on day `today`: the new
      quantity, and today as the restock date when the change adds stock. */
  function Adjust(s: Item, change: int, today: Date): (r: Item)
    ensures r.quantity == s.quantity + change
    ensures r.lastRestockDate == if change > 0 then Some(today) else s.lastRestockDate
    ensures r.(quantity := s.quantity, lastRestockDate := s.lastRestockDate) == s
  {
    s.(quantity := s.quantity + change,
       lastRestockDate := if change > 0 then Some(today) else s.lastRestockDate)
  }

  /** Taking back what an adjustment added restores the quantity; the restock
      date stays that of the addition. */
  lemma AdjustUndo(s: Item, change: int, today: Date, later: Date)
    requires change > 0
    ensures Adjust(Adjust(s, change, today), -change, later).quantity == s.quantity
    ensures Adjust(Adjust(s, change, today), -change, later).lastRestockDate == Some(today)
  {
  }

  /** Two adjustments in a row move the quantity by their sum. */
  lemma AdjustCompose(s: Item, a: int, b: int, d1: Date, d2: Date)
    ensures Adjust(Adjust(s, a, d1), b, d2).quantity == Adjust(s, a + b, d2).quantity
  {
  }

  /** The low-stock test of `getStock` and `getStockSummary`: a truthy minimum
      level that the quantity does not exceed. */
  predicate LowStock(s: Item)
  {
    Truthy(s.minStockLevel) && s.quantity <= s.minStockLevel.value
  }

  /** A minimum level of 0 or none never flags an item, even one with no stock
      left; with a positive minimum the test is the comparison. */
  lemma LowStockRule(s: Item)
    ensures s.minStockLevel == Some(0) || s.minStockLevel.None? ==> !LowStock(s)
    ensures s.minStockLevel.Some? && s.minStockLevel.value != 0 ==>
              (LowStock(s) <==> s.quantity <= s.minStockLevel.value)
  {
  }

  /** The stock adjustment the table's dialog requests: nothing for an amount
      that is not positive, otherwise the amount added or taken away. */
  function AdjustRequest(amount: int, isAdd: bool): (r: Option<int>)
    ensures r.None? <==> amount <= 0
    ensures r.Some? ==> r.value != 0 && (r.value > 0 <==> isAdd)
    ensures r.Some? ==> (if isAdd then r.value else -r.value) == amount
  {
    if amount <= 0 then None else Some(if isAdd then amount else -amount)
  }

  /** Only the "add" button records a restock. */
  lemma RequestRestocksOnlyOnAdd(s: Item, amount: int, isAdd: bool, today: Date)
    requires AdjustRequest(amount, isAdd).Some?
    ensures var r := Adjust(s, AdjustRequest(amount, isAdd).value, today);
            (r.lastRestockDate == Some(today) || r.lastRestockDate == s.lastRestockDate)
            && (isAdd ==> r.lastRestockDate == Some(today) && r.quantity > s.quantity)
            && (!isAdd ==> r.lastRestockDate == s.lastRestockDate && r.quantity < s.quantity)
  {
  }

  /** The form's value preview: quantity times unit price, an empty field counting as 0. */
  function TotalPreview(quantity: Option<int>, unitPrice: Option<int>): (v: int)
    ensures !Truthy(quantity) || !Truthy(unitPrice) ==> v == 0
    ensures Truthy(quantity) && Truthy(unitPrice) ==> v == quantity.value * unitPrice.value
    ensures OrZero(quantity) >= 0 && OrZero(unitPrice) >= 0 ==> v >= 0
  {
    OrZero(quantity) * OrZero(unitPrice)
  }

  /** The filters of `getStock` (the text search is left to the database). */
  datatype ListOptions = ListOptions(category: Option<string>, limit: Option<nat>, offset: Option<nat>, lowStock: bool)

  function Matches(opts: ListOptions): Item -> bool
  {
    (s: Item) => TruthyText(opts.category) ==> s.category == Some(opts.category.value)
  }

  function IsLow(s: Item): bool
  {
    LowStock(s)
  }

  /** One category's line of the summary. */
  datatype Tally = Tally(count: int, quantity: int, value: int)

  function CategoryOf(s: Item): string
  {
    TextOr(s.category, "Бусад")
  }

  function AddItem(t: Tally, s: Item): Tally
  {
    Tally(t.count + 1, t.quantity + s.quantity, t.value + OrZero(s.totalValue))
  }

  function TallyCount(t: Tally): int { t.count }
  function TallyQuantity(t: Tally): int { t.quantity }
  function TallyValue(t: Tally): int { t.value }
  function One(s: Item): int { 1 }
  function QuantityOf(s: Item): int { s.quantity }
  function ValueOf(s: Item): int { OrZero(s.totalValue) }

  /** What `getStockSummary` returns. */
  datatype Summary = Summary(
    totalItems: int,
    totalQuantity: int,
    totalValue: int,
    lowStockItems: int,
    byCategory: seq<(string, Tally)>)

  /** `getStockSummary` over the rows: totals, the low-stock count and the
      per-category lines. The lines add up to the totals, each category (a
      missing one as 'Бусад') has one line, and every row's category has one. */
  function Summarize(rows: seq<Item>): (r: Summary)
    ensures r.totalItems == |rows| && r.lowStockItems == Count(rows, IsLow)
    ensures r.totalQuantity == SumBy(rows, QuantityOf) && r.totalValue == SumBy(rows, ValueOf)
    ensures SumBy(r.byCategory, Weigh(TallyCount)) == r.totalItems
    ensures SumBy(r.byCategory, Weigh(TallyQuantity)) == r.totalQuantity
    ensures SumBy(r.byCategory, Weigh(TallyValue)) == r.totalValue
    ensures Distinct(Keys(r.byCategory))
    ensures forall i :: 0 <= i < |rows| ==> CategoryOf(rows[i]) in Keys(r.byCategory)
  {
    var byCategory := GroupBy(rows, CategoryOf, Tally(0, 0, 0), AddItem);
    GroupBySum(rows, CategoryOf, Tally(0, 0, 0), AddItem, TallyCount, One);
    SumByOnes(rows, One);
    GroupBySum(rows, CategoryOf, Tally(0, 0, 0), AddItem, TallyQuantity, QuantityOf);
    GroupBySum(rows, CategoryOf, Tally(0, 0, 0), AddItem, TallyValue, ValueOf);
    GroupByKeys(rows, CategoryOf, Tally(0, 0, 0), AddItem);
    Summary(|rows|, SumBy(rows, QuantityOf), SumBy(rows, ValueOf), Count(rows, IsLow), byCategory)
  }

  /** A category's line counts exactly the rows of that category and adds up
      exactly their quantities and values. */
  lemma SummaryLine(rows: seq<Item>, cat: string)
    requires Count(rows, KeyIs(CategoryOf, cat)) > 0
    ensures var line := Lookup(Summarize(rows).byCategory, cat);
            var mine := Filter(rows, KeyIs(CategoryOf, cat));
            line.Some? && line.value == Tally(|mine|, SumBy(mine, QuantityOf), SumBy(mine, ValueOf))
  {
    var mine := Filter(rows, KeyIs(CategoryOf, cat));
    GroupByLookup(rows, CategoryOf, Tally(0, 0, 0), AddItem, cat);
    FoldProjection(mine, Tally(0, 0, 0), AddItem, TallyCount, One);
    SumByOnes(mine, One);
    FoldProjection(mine, Tally(0, 0, 0), AddItem, TallyQuantity, QuantityOf);
    FoldProjection(mine, Tally(0, 0, 0), AddItem, TallyValue, ValueOf);
  }

  /** No stock row has a negative quantity. */
  predicate NonNegative(rows: seq<Item>)
  {
    forall i :: 0 <= i < |rows| ==> rows[i].quantity >= 0
  }

  /** The `stock` table. */
  class StockTable {
    var rows: seq<Item>

    predicate Valid()
      reads this
    {
      UniqueIds(rows, IdOf)
    }

    constructor ()
      ensures rows == [] && Valid()
    {
      rows := [];
    }

    /** `getStock`: the requested page of the rows of the category, then, when
        asked, only the low-stock items of that page; the count is that of the
        query, before the low-stock test. */
    function GetStock(opts: ListOptions, failure: Option<string>): (r: Result<Listing<Item>>)
      reads this
      ensures failure.Some? <==> r.Err?
      ensures r.Err? ==> r.error == StoreError(failure.value)
      ensures r.Ok? ==> r.value.count == Count(rows, Matches(opts))
      ensures r.Ok? && !opts.lowStock ==> r.value.data == Page(Filter(rows, Matches(opts)), opts.limit, opts.offset)
      ensures r.Ok? && opts.lowStock ==>
                r.value.data == Filter(Page(Filter(rows, Matches(opts)), opts.limit, opts.offset), IsLow)
      ensures r.Ok? && opts.lowStock ==> forall k :: 0 <= k < |r.value.data| ==> LowStock(r.value.data[k])
    {
      if failure.Some? then Err(StoreError(failure.value))
      else
        var selected := Filter(rows, Matches(opts));
        var page := Page(selected, opts.limit, opts.offset);
        var data := if opts.lowStock then Filter(page, IsLow) else page;
        Ok(Listing(data, |selected|))
    }

    /** `getStockById`: the row with the id, or "Бүртгэл олдсонгүй". */
    function GetById(id: string, failure: Option<string>): (r: Result<Item>)
      reads this
      ensures failure.Some? ==> r == Err(StoreError(failure.value))
      ensures failure.None? ==> (r.Ok? <==> HasId(rows, IdOf, id))
      ensures r.Ok? ==> r.value in rows && r.value.id == id
      ensures failure.None? && r.Err? ==> r.error == NotFound(RecordNotFound)
    {
      if failure.Some? then Err(StoreError(failure.value)) else SelectById(rows, IdOf, id, RecordNotFound)
    }

    /** `getStockSummary` over the whole table. */
    function GetStockSummary(failure: Option<string>): (r: Result<Summary>)
      reads this
      ensures failure.Some? ==> r == Err(StoreError(failure.value))
      ensures failure.None? ==> r.Ok? && r.value.totalItems == |rows|
      ensures r.Ok? ==> SumBy(r.value.byCategory, Weigh(TallyCount)) == |rows|
      ensures r.Ok? ==> r.value == Summarize(rows)
    {
      if failure.Some? then Err(StoreError(failure.value)) else Ok(Summarize(rows))
    }

    /** `createStock`: refuses without a signed-in user, otherwise inserts the
        new row stamped with the user. */
    method Create(user: Option<string>, input: Form, newId: string, failure: Option<string>) returns (r: Result<Item>)
      requires Valid()
      modifies this
      ensures Valid()
      ensures user.None? ==> r == Err(NotAuthenticated) && rows == old(rows)
      ensures user.Some? && failure.Some? ==> r == Err(StoreError(failure.value)) && rows == old(rows)
      ensures user.Some? && failure.None? && HasId(old(rows), IdOf, newId) ==>
                r == Err(StoreError(DuplicateKey)) && rows == old(rows)
      ensures user.Some? && failure.None? && !HasId(old(rows), IdOf, newId) ==>
                r == Ok(NewItem(newId, input, user.value)) && rows == old(rows) + [r.value]
    {
      if user.None? {
        return Err(NotAuthenticated);
      }
      var row := NewItem(newId, input, user.value);
      if failure.Some? {
        return Err(StoreError(failure.value));
      }
      var inserted := Insert(rows, IdOf, row);
      if inserted.Err? {
        return Err(inserted.error);
      }
      rows := inserted.value;
      r := Ok(row);
    }

    /** `updateStock`: writes the patch to the row with the id, or fails with
        "Бүртгэл олдсонгүй" when there is none. */
    method Update(id: string, patch: Patch, failure: Option<string>) returns (r: Result<Item>)
      requires Valid()
      modifies this
      ensures Valid()
      ensures failure.Some? ==> r == Err(StoreError(failure.value)) && rows == old(rows)
      ensures failure.None? && !HasId(old(rows), IdOf, id) ==>
                r == Err(NotFound(RecordNotFound)) && rows == old(rows)
      ensures failure.None? && HasId(old(rows), IdOf, id) ==>
                rows == UpdateWhere(old(rows), IdOf, id, s => Apply(s, patch))
                && r == Ok(Apply(SelectById(old(rows), IdOf, id, RecordNotFound).value, patch))
    {
      if failure.Some? {
        return Err(StoreError(failure.value));
      }
      var f := s => Apply(s, patch);
      var found := SelectById(rows, IdOf, id, RecordNotFound);
      if found.Err? {
        return Err(NotFound(RecordNotFound));
      }
      UpdateWhereKeepsIds(rows, IdOf, id, f);
      UpdateWhereSelect(rows, IdOf, id, f, RecordNotFound);
      rows := UpdateWhere(rows, IdOf, id, f);
      r := Ok(f(found.value));
    }

    /** `updateStockQuantity`: reads the row's quantity, refuses a result below
        zero, and otherwise writes the new quantity (and today's date as the
        restock date when stock is added). A failed read reports the row as not
        found. Stock that was never negative stays so. */
    method UpdateQuantity(id: string, change: int, today: Date, readFailure: bool, failure: Option<string>)
      returns (r: Result<Item>)
      requires Valid()
      modifies this
      ensures Valid()
      ensures readFailure || !HasId(old(rows), IdOf, id) ==>
                r == Err(NotFound(RecordNotFound)) && rows == old(rows)
      ensures !readFailure && HasId(old(rows), IdOf, id) ==>
                var current := SelectById(old(rows), IdOf, id, RecordNotFound).value;
                && (current.quantity + change < 0 ==> r == Err(NegativeQuantity) && rows == old(rows))
                && (current.quantity + change >= 0 && failure.Some? ==>
                      r == Err(StoreError(failure.value)) && rows == old(rows))
                && (current.quantity + change >= 0 && failure.None? ==>
                      r == Ok(Adjust(current, change, today))
                      && rows == UpdateWhere(old(rows), IdOf, id, s => Adjust(s, change, today)))
      ensures NonNegative(old(rows)) ==> NonNegative(rows)
    {
      var found := SelectById(rows, IdOf, id, RecordNotFound);
      if readFailure || found.Err? {
        return Err(NotFound(RecordNotFound));
      }
      var current := found.value;
      var newQuantity := current.quantity + change;
      if newQuantity < 0 {
        return Err(NegativeQuantity);
      }
      if failure.Some? {
        return Err(StoreError(failure.value));
      }
      var f := s => Adjust(s, change, today);
      UpdateWhereKeepsIds(rows, IdOf, id, f);
      ghost var before := rows;
      rows := UpdateWhere(rows, IdOf, id, f);
      forall i | 0 <= i < |rows| && NonNegative(before) ensures rows[i].quantity >= 0 {
        if IdOf(before[i]) == id {
          assert before[i] == current;
        }
      }
      r := Ok(f(current));
    }

    /** `deleteStock`: removes the row with the id; deleting a missing id is not an error. */
    method Delete(id: string, failure: Option<string>) returns (r: Result<()>)
      requires Valid()
      modifies this
      ensures Valid()
      ensures failure.Some? ==> r == Err(StoreError(failure.value)) && rows == old(rows)
      ensures failure.None? ==> r == Ok(()) && rows == DeleteWhere(old(rows), IdOf, id)
    {
      if failure.Some? {
        return Err(StoreError(failure.value));
      }
      FilterKeepsIds(rows, IdOf, Not(IdIs(IdOf, id)));
      rows := DeleteWhere(rows, IdOf, id);
      r := Ok(());
    }
  }
}
