/** The JavaScript string built-ins the source relies on: `String(n)` for an
    integer, `padStart(2, '0')`, `trim()`, the `\s` and `\d` character classes,
    and `parseFloat` on plain decimal text. */
module JsText {
  import opened Common

  predicate IsDigit(c: char)
  {
    '0' <= c <= '9'
  }

  function DigitChar(d: nat): (c: char)
    requires d < 10
    ensures IsDigit(c)
  {
    ('0' as int + d) as char
  }

  function DigitValue(c: char): (d: nat)
    requires IsDigit(c)
    ensures d < 10
  {
    (c as int - '0' as int)
  }

  predicate AllDigits(s: string)
  {
    forall i :: 0 <= i < |s| ==> IsDigit(s[i])
  }

  /** The number a run of decimal digits spells. */
  function DigitsValue(s: string): nat
    requires AllDigits(s)
    decreases |s|
  {
    if s == [] then 0 else 10 * DigitsValue(s[..|s| - 1]) + DigitValue(s[|s| - 1])
  }

  /** `String(n)` for a non-negative integer. */
  function NatToString(n: nat): (s: string)
    ensures |s| >= 1 && AllDigits(s)
    ensures DigitsValue(s) == n
    ensures |s| > 1 ==> s[0] != '0'
    decreases n
  {
    if n < 10 then [DigitChar(n)]
    else
      var s := NatToString(n / 10) + [DigitChar(n % 10)];
      assert s[..|s| - 1] == NatToString(n / 10);
      s
  }

  /** `String(n)` for any integer. */
  function IntToString(n: int): (s: string)
    ensures n >= 0 ==> s == NatToString(n)
    ensures n < 0 ==> s == "-" + NatToString(-n)
  {
    if n < 0 then "-" + NatToString(-n) else NatToString(n)
  }

  /** `s.padStart(2, '0')`. */
  function PadStart2(s: string): (r: string)
    ensures |s| >= 2 ==> r == s
    ensures |s| < 2 ==> |r| == 2 && r[2 - |s|..] == s && forall i :: 0 <= i < 2 - |s| ==> r[i] == '0'
  {
    if |s| >= 2 then s else seq(2 - |s|, _ => '0') + s
  }

  /** `String(n).padStart(2, '0')`: two digits that spell n, for n below 100. */
  function Pad2(n: nat): (r: string)
    ensures n < 100 ==> |r| == 2 && AllDigits(r) && DigitsValue(r) == n
  {
    var s := NatToString(n);
    if n < 10 then
      assert s == [DigitChar(n)];
      var r := PadStart2(s);
      assert r == "0" + s;
      assert r[..1] == "0";
      r
    else if n < 100 then
      assert s == NatToString(n / 10) + [DigitChar(n % 10)];
      assert |NatToString(n / 10)| == 1;
      PadStart2(s)
    else PadStart2(s)
  }

  /** The characters JavaScript's `\s` and `trim()` treat as white space
      (WhiteSpace and LineTerminator of the ECMAScript grammar). */
  predicate IsSpace(c: char)
  {
    var u := c as int;
    (0x09 <= u <= 0x0D) || u == 0x20 || u == 0xA0 || u == 0x1680
    || (0x2000 <= u <= 0x200A) || u == 0x2028 || u == 0x2029 || u == 0x202F
    || u == 0x205F || u == 0x3000 || u == 0xFEFF
  }

  /** `s.trimStart()`. */
  function TrimStart(s: string): (r: string)
    ensures |r| <= |s| && r == s[|s| - |r|..]
    ensures r != [] ==> !IsSpace(r[0])
    ensures forall i :: 0 <= i < |s| - |r| ==> IsSpace(s[i])
    decreases |s|
  {
    if s != [] && IsSpace(s[0]) then TrimStart(s[1..]) else s
  }

  /** `s.trimEnd()`. */
  function TrimEnd(s: string): (r: string)
    ensures |r| <= |s| && r == s[..|r|]
    ensures r != [] ==> !IsSpace(r[|r| - 1])
    ensures forall i :: |r| <= i < |s| ==> IsSpace(s[i])
    decreases |s|
  {
    if s != [] && IsSpace(s[|s| - 1]) then TrimEnd(s[..|s| - 1]) else s
  }

  /** `s.trim()`: the input without its leading and trailing white space. */
  function Trim(s: string): (r: string)
    ensures r != [] ==> !IsSpace(r[0]) && !IsSpace(r[|r| - 1])
    ensures exists i, j :: 0 <= i <= j <= |s| && r == s[i..j]
  {
    var t := TrimStart(s);
    var r := TrimEnd(t);
    assert r == s[|s| - |t|..][..|r|] == s[|s| - |t|..|s| - |t| + |r|];
    r
  }

  /** The longest prefix of s made of digits. */
  function LeadingDigits(s: string): (r: string)
    ensures |r| <= |s| && AllDigits(r) && r == s[..|r|]
    ensures |r| < |s| ==> !IsDigit(s[|r|])
    decreases |s|
  {
    if s != [] && IsDigit(s[0]) then [s[0]] + LeadingDigits(s[1..]) else []
  }

  function Pow10(n: nat): (p: nat)
    ensures p >= 1
  {
    if n == 0 then 1 else 10 * Pow10(n - 1)
  }

  /** The value of the digits after a decimal point. */
  function FractionValue(s: string): (v: real)
    requires AllDigits(s)
    ensures 0.0 <= v
  {
    DigitsValue(s) as real / Pow10(|s|) as real
  }

  /** The number at the head of unsigned text: digits, then optionally a
      point and more digits; None when neither part has a digit. */
  function ParseUnsigned(body: string): Option<real>
  {
    var whole := LeadingDigits(body);
    var after := body[|whole|..];
    var fraction := if after != [] && after[0] == '.' then LeadingDigits(after[1..]) else [];
    if whole == [] && fraction == [] then None
    else Some(DigitsValue(whole) as real + FractionValue(fraction))
  }

  /** `parseFloat(s)` on decimal text: leading white space is skipped, then the
      longest prefix of the form [sign] digits [. digits] is read; None is NaN. */
  function ParseFloat(s: string): Option<real>
  {
    var t := TrimStart(s);
    if t != [] && t[0] == '-' then
      match ParseUnsigned(t[1..])
      case None => None
      case Some(v) => Some(-v)
    else if t != [] && t[0] == '+' then ParseUnsigned(t[1..])
    else ParseUnsigned(t)
  }

  /** Plain digits read back as their own value. */
  lemma ParseFloatDigits(s: string)
    requires s != [] && AllDigits(s)
    ensures ParseFloat(s) == Some(DigitsValue(s) as real)
  {
    assert IsDigit(s[0]);
    assert !IsSpace(s[0]);
    assert TrimStart(s) == s;
    assert s[0] != '-' && s[0] != '+';
    ParseUnsignedDigits(s);
  }

  lemma ParseUnsignedDigits(s: string)
    requires s != [] && AllDigits(s)
    ensures ParseUnsigned(s) == Some(DigitsValue(s) as real)
  {
    LeadingDigitsAll(s);
    var whole := LeadingDigits(s);
    var after := s[|whole|..];
    assert after == [];
    var fraction: string := [];
    assert Pow10(0) == 1;
    assert DigitsValue(fraction) == 0;
    assert FractionValue(fraction) == 0.0;
  }

  lemma {:induction false} LeadingDigitsAll(s: string)
    requires AllDigits(s)
    ensures LeadingDigits(s) == s
    decreases |s|
  {
    if s != [] {
      LeadingDigitsAll(s[1..]);
    }
  }

  /** `String(n)` for a non-negative integer reads back as n. */
  lemma ParseFloatNatToString(n: nat)
    ensures ParseFloat(NatToString(n)) == Some(n as real)
  {
    ParseFloatDigits(NatToString(n));
  }

  /** JavaScript `a < b` on strings: lexicographic order of the characters. */
  predicate LexLess(a: string, b: string)
    decreases |a|
  {
    if a == [] then b != []
    else if b == [] then false
    else if a[0] != b[0] then a[0] < b[0]
    else LexLess(a[1..], b[1..])
  }

  lemma {:induction false} LexLessTransitive(a: string, b: string, c: string)
    requires LexLess(a, b) && LexLess(b, c)
    ensures LexLess(a, c)
    decreases |a|
  {
    if a != [] && b != [] && c != [] && a[0] == b[0] && b[0] == c[0] {
      LexLessTransitive(a[1..], b[1..], c[1..]);
    }
  }

  lemma {:induction false} LexLessIrreflexive(a: string)
    ensures !LexLess(a, a)
    decreases |a|
  {
    if a != [] {
      LexLessIrreflexive(a[1..]);
    }
  }

  /** A list whose neighbours are in order is in order throughout. */
  lemma {:induction false} LexSortedByNeighbours(s: seq<string>)
    requires forall i :: 0 <= i < |s| - 1 ==> LexLess(s[i], s[i + 1])
    ensures forall i, j :: 0 <= i < j < |s| ==> LexLess(s[i], s[j])
    decreases |s|
  {
    if |s| > 1 {
      var t := s[..|s| - 1];
      LexSortedByNeighbours(t);
      forall i, j | 0 <= i < j < |s|
        ensures LexLess(s[i], s[j])
      {
        if j < |s| - 1 {
          assert LexLess(t[i], t[j]);
        } else if i < j - 1 {
          assert LexLess(t[i], t[j - 1]);
          LexLessTransitive(s[i], s[j - 1], s[j]);
        }
      }
    }
  }

  /** A common prefix does not decide the order. */
  lemma {:induction false} LexLessCommonPrefix(p: string, a: string, b: string)
    ensures LexLess(p + a, p + b) == LexLess(a, b)
    decreases |p|
  {
    if p == [] {
      assert p + a == a && p + b == b;
    } else {
      assert (p + a)[0] == (p + b)[0];
      assert (p + a)[1..] == p[1..] + a;
      assert (p + b)[1..] == p[1..] + b;
      LexLessCommonPrefix(p[1..], a, b);
    }
  }
}
