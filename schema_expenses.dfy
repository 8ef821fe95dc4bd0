/** `src/lib/validations/expenses.ts`: the expense form schema and the category select list. */
module ExpenseSchema {
  import opened Common
  import opened Seqs
  import opened Calendar

  const CategoryEnum: seq<string> := ["Оффис", "Тоног төхөөрөмж", "Тээвэр", "Маркетинг", "Бусад"]

  const Categories: seq<Choice> := [
    Choice("Оффис", "Оффис"), Choice("Тоног төхөөрөмж", "Тоног төхөөрөмж"), Choice("Тээвэр", "Тээвэр"),
    Choice("Маркетинг", "Маркетинг"), Choice("Бусад", "Бусад")
  ]

  /** The form data; `optional()` fields are None when absent. The date field
      carries the day its text denotes, None for an empty text. */
  datatype Form = Form(
    description: string,
    category: string,
    amount: int,
    expenseDate: Option<Date>,
    vendor: Option<string>,
    receiptNumber: Option<string>,
    notes: Option<string>)

  /** What the schema accepts: a description, a known category, an amount of at
      least 1 and a date text; vendor, receipt number and notes are free. */
  predicate Valid(f: Form)
  {
    |f.description| >= 1 && f.category in CategoryEnum && f.amount >= 1 && f.expenseDate.Some?
  }

  /** The issues the schema reports; the form parses exactly when there are none. */
  function Issues(f: Form): (r: seq<Issue>)
    ensures r == [] <==> Valid(f)
    ensures |r| <= 4
  {
    Check(|f.description| >= 1, "description", "Тайлбар оруулна уу")
    + Check(f.category in CategoryEnum, "category", "")
    + Check(f.amount >= 1, "amount", "Дүн оруулна уу")
    + Check(f.expenseDate.Some?, "expense_date", "Огноо оруулна уу")
  }

  /** The optional text fields never make a form invalid. */
  lemma OptionalFieldsFree(f: Form)
    requires Valid(f)
    ensures forall v, n, r :: Valid(f.(vendor := v, receiptNumber := n, notes := r))
  {
  }

  /** The select list offers each category once, exactly the categories the schema accepts. */
  lemma CategoryTable()
    ensures Distinct(Values(Categories))
    ensures Values(Categories) == CategoryEnum
  {
  }
}
