/** `src/lib/validations/stock.ts`: the stock-item form schema and the category select list. */
module StockSchema {
  import opened Common
  import opened Seqs
  import opened Calendar

  const CategoryEnum: seq<string> := ["FAS", "PAS", "CCTV", "Access", "Бусад"]

  const StockCategories: seq<Choice> := [
    Choice("FAS", "FAS"), Choice("PAS", "PAS"), Choice("CCTV", "CCTV"),
    Choice("Access", "Access"), Choice("Бусад", "Бусад")
  ]

  /** The form data; `optional()` fields are None when absent. */
  datatype Form = Form(
    productName: string,
    sku: Option<string>,
    category: Option<string>,
    quantity: int,
    unitPrice: Option<int>,
    minStockLevel: Option<int>,
    location: Option<string>,
    supplier: Option<string>,
    lastRestockDate: Option<Date>,
    notes: Option<string>)

  /** What the schema accepts: a name, a known category if any, a quantity of
      at least 0; unit price and minimum level are unbounded. */
  predicate Valid(f: Form)
  {
    |f.productName| >= 1
    && (f.category.Some? ==> f.category.value in CategoryEnum)
    && f.quantity >= 0
  }

  /** The issues the schema reports; the form parses exactly when there are none. */
  function Issues(f: Form): (r: seq<Issue>)
    ensures r == [] <==> Valid(f)
    ensures |r| <= 3
  {
    Check(|f.productName| >= 1, "product_name", "Бүтээгдэхүүний нэр оруулна уу")
    + Check(f.category.None? || f.category.value in CategoryEnum, "category", "")
    + Check(f.quantity >= 0, "quantity", "Тоо хэмжээ 0-ээс их байх ёстой")
  }

  /** A negative unit price or minimum level does not make a form invalid. */
  lemma PriceAndMinimumUnbounded(f: Form)
    requires Valid(f)
    ensures forall p, m :: Valid(f.(unitPrice := p, minStockLevel := m))
  {
  }

  /** The select list offers each category once, exactly the categories the schema accepts. */
  lemma CategoryTable()
    ensures Distinct(Values(StockCategories))
    ensures Values(StockCategories) == CategoryEnum
  {
  }
}
