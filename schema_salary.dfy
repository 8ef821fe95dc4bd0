/** `src/lib/validations/salary.ts`: the salary form schema, the payment-status
    select list and the payment-month select list. */
module SalarySchema {
  import opened Common
  import opened Seqs
  import opened JsText
  import opened Calendar

  const StatusEnum: seq<string> := ["Pending", "Paid", "Cancelled"]

  const PaymentStatuses: seq<Choice> := [
    Choice("Pending", "Хүлээгдэж байна"), Choice("Paid", "Төлөгдсөн"), Choice("Cancelled", "Цуцлагдсан")
  ]

  /** The `paymentMonths` select list: every month of 2025 and 2026 in order,
      entry i being month i mod 12 + 1 of year 2025 + i div 12. */
  const PaymentMonths: seq<Choice> := seq(24, i requires 0 <= i < 24 => MonthChoice(2025 + i / 12, i % 12 + 1))

  /** The entry of a month: its `YYYY-MM` key and the caption `<year> оны <month>-р сар`. */
  function MonthChoice(year: nat, month: nat): Choice
  {
    Choice(MonthKey(year, month), NatToString(year) + " оны " + NatToString(month) + "-р сар")
  }

  /** The `YYYY-MM` key of a month. */
  function MonthKey(year: nat, month: nat): string
  {
    NatToString(year) + "-" + Pad2(month)
  }

  /** The form data; `optional()` fields are None when absent. The payment date
      carries the day its text denotes, None for an empty text. */
  datatype Form = Form(
    employeeName: string,
    position: Option<string>,
    baseSalary: int,
    bonus: Option<int>,
    deductions: Option<int>,
    paymentDate: Option<Date>,
    paymentMonth: string,
    paymentStatus: string,
    notes: Option<string>)

  /** What the schema accepts: a name, a base salary of at least 1, a payment
      date and month, and a known status; bonus and deductions are unbounded. */
  predicate Valid(f: Form)
  {
    |f.employeeName| >= 1
    && f.baseSalary >= 1
    && f.paymentDate.Some?
    && |f.paymentMonth| >= 1
    && f.paymentStatus in StatusEnum
  }

  /** The issues the schema reports; the form parses exactly when there are none. */
  function Issues(f: Form): (r: seq<Issue>)
    ensures r == [] <==> Valid(f)
    ensures |r| <= 5
  {
    Check(|f.employeeName| >= 1, "employee_name", "Ажилтны нэр оруулна уу")
    + Check(f.baseSalary >= 1, "base_salary", "Үндсэн цалин оруулна уу")
    + Check(f.paymentDate.Some?, "payment_date", "Төлбөрийн огноо оруулна уу")
    + Check(|f.paymentMonth| >= 1, "payment_month", "Төлбөрийн сар оруулна уу")
    + Check(f.paymentStatus in StatusEnum, "payment_status", "")
  }

  /** Bonus and deductions of any sign leave a valid form valid. */
  lemma BonusAndDeductionsUnbounded(f: Form)
    requires Valid(f)
    ensures forall b, d :: Valid(f.(bonus := b, deductions := d))
  {
  }

  /** The status select list offers each status once, exactly the statuses the schema accepts. */
  lemma StatusTable()
    ensures Distinct(Values(PaymentStatuses))
    ensures Values(PaymentStatuses) == StatusEnum
  {
  }

  /** The list starts at 2025-01 and ends at 2026-12. */
  lemma PaymentMonthsEnds()
    ensures |PaymentMonths| == 24
    ensures PaymentMonths[0] == Choice("2025-01", "2025 оны 1-р сар")
    ensures PaymentMonths[23] == Choice("2026-12", "2026 оны 12-р сар")
  {
    assert PaymentMonths[0] == MonthChoice(2025, 1);
    assert PaymentMonths[23] == MonthChoice(2026, 12);
    MonthChoiceText2025January();
    MonthChoiceText2026December();
  }

  lemma MonthChoiceText2025January()
    ensures MonthChoice(2025, 1) == Choice("2025-01", "2025 оны 1-р сар")
  {
    YearText(2025);
    MonthText(1);
    assert DigitChar(1) == '1';
  }

  lemma MonthChoiceText2026December()
    ensures MonthChoice(2026, 12) == Choice("2026-12", "2026 оны 12-р сар")
  {
    YearText(2026);
    MonthText(12);
    assert DigitChar(2) == '2';
    var twelve := NatToString(12);
    assert twelve == "12";
    assert Pad2(12) == twelve;
    assert MonthKey(2026, 12) == "2026" + "-" + "12";
    assert "2026" + "-" + "12" == "2026-12";
    assert NatToString(2026) + " оны " + twelve + "-р сар" == "2026" + " оны " + "12" + "-р сар";
    assert "2026" + " оны " + "12" + "-р сар" == "2026 оны 12-р сар";
  }

  lemma YearText(y: nat)
    requires y == 2025 || y == 2026
    ensures NatToString(y) == if y == 2025 then "2025" else "2026"
  {
    assert NatToString(2) == "2";
    assert NatToString(20) == "20";
    assert NatToString(202) == "202";
  }

  /** The digits of a month number and its padded form. */
  lemma MonthText(m: nat)
    requires 1 <= m <= 12
    ensures m < 10 ==> NatToString(m) == [DigitChar(m)] && Pad2(m) == ['0', DigitChar(m)]
    ensures m >= 10 ==> NatToString(m) == ['1', DigitChar(m - 10)] && Pad2(m) == NatToString(m)
  {
    if m >= 10 {
      assert NatToString(m) == NatToString(1) + [DigitChar(m % 10)];
    }
  }

  /** Each month's key sorts before the key of the month after it, for four-digit
      years (the month after December 9999 has a five-digit year, whose key
      sorts before it). */
  lemma {:induction false} MonthKeyBeforeNext(y: nat, m: nat)
    requires 1000 <= y <= 9999 && 1 <= m <= 12
    requires m == 12 ==> y < 9999
    ensures LexLess(MonthKey(y, m), if m == 12 then MonthKey(y + 1, 1) else MonthKey(y, m + 1))
  {
    var ys := NatToString(y);
    MonthText(m);
    if m < 9 {
      MonthText(m + 1);
      assert MonthKey(y, m) == (ys + "-0") + [DigitChar(m)];
      assert MonthKey(y, m + 1) == (ys + "-0") + [DigitChar(m + 1)];
      LexLessCommonPrefix(ys + "-0", [DigitChar(m)], [DigitChar(m + 1)]);
    } else if m == 9 {
      MonthText(10);
      assert MonthKey(y, 9) == (ys + "-") + ['0', DigitChar(9)];
      assert MonthKey(y, 10) == (ys + "-") + ['1', DigitChar(0)];
      LexLessCommonPrefix(ys + "-", ['0', DigitChar(9)], ['1', DigitChar(0)]);
    } else if m < 12 {
      MonthText(m + 1);
      assert MonthKey(y, m) == (ys + "-1") + [DigitChar(m - 10)];
      assert MonthKey(y, m + 1) == (ys + "-1") + [DigitChar(m + 1 - 10)];
      LexLessCommonPrefix(ys + "-1", [DigitChar(m - 10)], [DigitChar(m + 1 - 10)]);
    } else {
      YearBeforeNext(y, "-" + Pad2(12), "-" + Pad2(1));
      assert MonthKey(y, 12) == ys + ("-" + Pad2(12));
      assert MonthKey(y + 1, 1) == NatToString(y + 1) + ("-" + Pad2(1));
    }
  }

  /** The digits of a four-digit number, most significant first. */
  lemma FourDigits(n: nat)
    requires 1000 <= n <= 9999
    ensures NatToString(n) == [DigitChar(n / 1000), DigitChar(n / 100 % 10), DigitChar(n / 10 % 10), DigitChar(n % 10)]
  {
    var a := n / 10;
    var b := a / 10;
    var c := b / 10;
    assert b == n / 100 && c == n / 1000;
    assert NatToString(c) == [DigitChar(c)];
    assert NatToString(b) == NatToString(c) + [DigitChar(b % 10)];
    assert NatToString(a) == NatToString(b) + [DigitChar(a % 10)];
    assert NatToString(n) == NatToString(a) + [DigitChar(n % 10)];
  }

  /** Texts that agree up to a digit and differ first there, the first text
      having the smaller digit, are in order whatever follows. */
  lemma FirstDigitDiffers(p: string, d: nat, e: nat, x: string, z: string)
    requires d < e < 10
    ensures LexLess(p + [DigitChar(d)] + x, p + [DigitChar(e)] + z)
  {
    assert p + [DigitChar(d)] + x == p + ([DigitChar(d)] + x);
    assert p + [DigitChar(e)] + z == p + ([DigitChar(e)] + z);
    LexLessCommonPrefix(p, [DigitChar(d)] + x, [DigitChar(e)] + z);
  }

  /** Four digits in lexicographic order give texts in order, whatever follows. */
  lemma FourDigitsBefore(a: nat, b: nat, c: nat, d: nat, a2: nat, b2: nat, c2: nat, d2: nat, x: string, z: string)
    requires a < 10 && b < 10 && c < 10 && d < 10 && a2 < 10 && b2 < 10 && c2 < 10 && d2 < 10
    requires a < a2 || (a == a2 && (b < b2 || (b == b2 && (c < c2 || (c == c2 && d < d2)))))
    ensures LexLess([DigitChar(a), DigitChar(b), DigitChar(c), DigitChar(d)] + x,
                    [DigitChar(a2), DigitChar(b2), DigitChar(c2), DigitChar(d2)] + z)
  {
    var u := [DigitChar(a), DigitChar(b), DigitChar(c), DigitChar(d)] + x;
    var v := [DigitChar(a2), DigitChar(b2), DigitChar(c2), DigitChar(d2)] + z;
    if a < a2 {
      assert u == [] + [DigitChar(a)] + u[1..] && v == [] + [DigitChar(a2)] + v[1..];
      FirstDigitDiffers([], a, a2, u[1..], v[1..]);
    } else if b < b2 {
      assert u == u[..1] + [DigitChar(b)] + u[2..] && v == u[..1] + [DigitChar(b2)] + v[2..];
      FirstDigitDiffers(u[..1], b, b2, u[2..], v[2..]);
    } else if c < c2 {
      assert u == u[..2] + [DigitChar(c)] + u[3..] && v == u[..2] + [DigitChar(c2)] + v[3..];
      FirstDigitDiffers(u[..2], c, c2, u[3..], v[3..]);
    } else {
      assert u == u[..3] + [DigitChar(d)] + u[4..] && v == u[..3] + [DigitChar(d2)] + v[4..];
      FirstDigitDiffers(u[..3], d, d2, u[4..], v[4..]);
    }
  }

  /** The digits of a four-digit number and of the next are in lexicographic order. */
  lemma NextDigitsAfter(y: nat)
    requires 1000 <= y < 9999
    ensures var a, b, c, d := y / 1000, y / 100 % 10, y / 10 % 10, y % 10;
            var a2, b2, c2, d2 := (y + 1) / 1000, (y + 1) / 100 % 10, (y + 1) / 10 % 10, (y + 1) % 10;
            a2 < 10 && (a < a2 || (a == a2 && (b < b2 || (b == b2 && (c < c2 || (c == c2 && d < d2))))))
  {
    PlaceValues(y);
    PlaceValues(y + 1);
  }

  /** A four-digit number is its digits weighted by their place values. */
  lemma PlaceValues(n: nat)
    requires 1000 <= n <= 9999
    ensures n == 1000 * (n / 1000) + 100 * (n / 100 % 10) + 10 * (n / 10 % 10) + n % 10
    ensures 1 <= n / 1000 < 10
  {
    var q1, r0 := n / 10, n % 10;
    var q2, r1 := q1 / 10, q1 % 10;
    var q3, r2 := q2 / 10, q2 % 10;
    assert n == 10 * q1 + r0 && q1 == 10 * q2 + r1 && q2 == 10 * q3 + r2;
    assert n == 100 * q2 + (10 * r1 + r0) && 0 <= 10 * r1 + r0 < 100;
    assert n / 100 == q2;
    assert n == 1000 * q3 + (100 * r2 + 10 * r1 + r0) && 0 <= 100 * r2 + 10 * r1 + r0 < 1000;
    assert n / 1000 == q3;
  }

  /** A four-digit year's text sorts before the next year's, whatever follows. */
  lemma YearBeforeNext(y: nat, x: string, z: string)
    requires 1000 <= y < 9999
    ensures LexLess(NatToString(y) + x, NatToString(y + 1) + z)
  {
    FourDigits(y);
    FourDigits(y + 1);
    NextDigitsAfter(y);
    FourDigitsBefore(y / 1000, y / 100 % 10, y / 10 % 10, y % 10,
                     (y + 1) / 1000, (y + 1) / 100 % 10, (y + 1) / 10 % 10, (y + 1) % 10, x, z);
  }

  lemma PaymentMonthAt(i: nat)
    requires i < 24
    ensures PaymentMonths[i].value == MonthKey(2025 + i / 12, i % 12 + 1)
  {
  }

  /** Entries i and i + 1 of the list are the keys of month m of year y and of
      the month after it. */
  lemma PaymentMonthPair(i: nat, y: nat, m: nat)
    requires i < 23
    requires y == (if i < 12 then 2025 else 2026) && m == (if i < 12 then i + 1 else i - 11)
    ensures PaymentMonths[i].value == MonthKey(y, m)
    ensures PaymentMonths[i + 1].value == if m == 12 then MonthKey(y + 1, 1) else MonthKey(y, m + 1)
  {
    PaymentMonthAt(i);
    PaymentMonthAt(i + 1);
    if i < 11 {
      assert i / 12 == 0 && i % 12 == i && (i + 1) / 12 == 0 && (i + 1) % 12 == i + 1;
    } else if i == 11 {
      assert (i + 1) / 12 == 1 && (i + 1) % 12 == 0;
    } else {
      assert i / 12 == 1 && i % 12 == i - 12 && (i + 1) / 12 == 1 && (i + 1) % 12 == i - 11;
    }
  }

  /** Each key of the list sorts before the next one. */
  lemma PaymentMonthBeforeNext(i: nat)
    requires i < 23
    ensures LexLess(PaymentMonths[i].value, PaymentMonths[i + 1].value)
  {
    var y: nat := if i < 12 then 2025 else 2026;
    var m: nat := if i < 12 then i + 1 else i - 11;
    PaymentMonthPair(i, y, m);
    MonthKeyBeforeNext(y, m);
  }

  /** The month keys are in strictly increasing string order. */
  lemma PaymentMonthsIncreasing()
    ensures forall i, j :: 0 <= i < j < |PaymentMonths| ==>
              LexLess(PaymentMonths[i].value, PaymentMonths[j].value)
  {
    var v := Values(PaymentMonths);
    forall i | 0 <= i < |v| - 1
      ensures LexLess(v[i], v[i + 1])
    {
      PaymentMonthBeforeNext(i);
    }
    LexSortedByNeighbours(v);
  }
}
