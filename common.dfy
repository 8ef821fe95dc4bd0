/** Values shared by every part of the model: optional values, the errors the
    server actions throw, their results, and JavaScript's truthiness tests on
    nullable columns. */
module Common {

  /** A nullable column or an optional argument (`null` / `undefined` is None). */
  datatype Option<+T> = None | Some(value: T)

  /** The errors the server actions throw, each with the text of its `Error`. */
  datatype Error =
    | NotAuthenticated
    | NotFound(message: string)
    | NoPermissionOrNotFound
    | NegativeQuantity
    | InsertReturnedNothing
    | StoreError(message: string)

  /** A server action either returns a value or throws one of the errors above. */
  datatype Result<+T> = Ok(value: T) | Err(error: Error)

  const RecordNotFound: string := "Бүртгэл олдсонгүй"
  const ContractNotFound: string := "Гэрээ олдсонгүй"

  /** The message carried by the thrown `Error`. */
  function Message(e: Error): (m: string)
    ensures m != ""
  {
    match e
    case NotAuthenticated => "Not authenticated"
    case NotFound(msg) => if msg == "" then RecordNotFound else msg
    case NoPermissionOrNotFound => "Устгах эрх байхгүй эсвэл бүртгэл олдсонгүй"
    case NegativeQuantity => "Тоо хэмжээ хасах байж болохгүй"
    case InsertReturnedNothing => "Бүртгэл үүсгэхэд алдаа гарлаа"
    case StoreError(msg) => if msg == "" then "error" else msg
  }

  /** JavaScript `x ? ... : ...` on a nullable number: null and 0 are falsy. */
  predicate Truthy(x: Option<int>)
  {
    x.Some? && x.value != 0
  }

  /** JavaScript `x || 0` on a nullable number. */
  function OrZero(x: Option<int>): (r: int)
    ensures Truthy(x) ==> r == x.value
    ensures !Truthy(x) ==> r == 0
  {
    if x.Some? then x.value else 0
  }

  /** JavaScript truthiness of a nullable string: null and "" are falsy. */
  predicate TruthyText(s: Option<string>)
  {
    s.Some? && s.value != ""
  }

  /** JavaScript `s || fallback` on a nullable string. */
  function TextOr(s: Option<string>, fallback: string): (r: string)
    ensures TruthyText(s) ==> r == s.value
    ensures !TruthyText(s) ==> r == fallback
  {
    if TruthyText(s) then s.value else fallback
  }

  /** JavaScript `Math.round` on an exact real: the nearest integer, halves rounded up. */
  function Round(x: real): (r: int)
    ensures r as real - 0.5 <= x < r as real + 0.5
  {
    (x + 0.5).Floor
  }

  /** `price ? price / 1.1 : null`: the price net of the 10% VAT, or null for a
      null or zero price. Adding the VAT back gives the price. */
  function PriceWithoutVat(price: Option<int>): (r: Option<real>)
    ensures r.Some? <==> Truthy(price)
    ensures r.Some? ==> r.value * 1.1 == price.value as real
  {
    if Truthy(price) then Some(price.value as real / 1.1) else None
  }

  /** An option of a select list: the stored value and the caption shown (`label`). */
  datatype Choice = Choice(value: string, caption: string)

  /** The stored values of a select list, in display order. */
  function Values(t: seq<Choice>): (v: seq<string>)
    ensures |v| == |t|
    ensures forall i :: 0 <= i < |t| ==> v[i] == t[i].value
  {
    seq(|t|, i requires 0 <= i < |t| => t[i].value)
  }

  /** A failed schema check: the field and the message shown for it (empty
      where the schema leaves the library's default message). */
  datatype Issue = Issue(field: string, message: string)

  /** One schema check: no issue when it holds, one issue naming the field otherwise. */
  function Check(ok: bool, field: string, message: string): (r: seq<Issue>)
    ensures r == [] <==> ok
    ensures forall i :: 0 <= i < |r| ==> r[i].field == field
  {
    if ok then [] else [Issue(field, message)]
  }
}
