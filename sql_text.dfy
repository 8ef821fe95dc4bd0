/** `escapeSql`, which both seed scripts (`supabase/generate-seed.js` and
    `supabase/parse-excel.js`) use to write a cell as an SQL string literal. */
module SqlText {
  import opened Common

  /** The text with every `'` doubled: `.replace(/'/g, "''")`. */
  function Doubled(s: string): (r: string)
    ensures |r| >= |s|
    decreases |s|
  {
    if s == [] then []
    else (if s[0] == '\'' then "''" else [s[0]]) + Doubled(s[1..])
  }

  /** How SQL reads the inside of a literal: `''` stands for one `'`. */
  function Undoubled(t: string): (r: string)
    ensures |r| <= |t|
    decreases |t|
  {
    if t == [] then []
    else if |t| >= 2 && t[0] == '\'' && t[1] == '\'' then "'" + Undoubled(t[2..])
    else [t[0]] + Undoubled(t[1..])
  }

  /** Every `'` of t is one of a pair: the text cannot end the literal early. */
  predicate Paired(t: string)
    decreases |t|
  {
    t == []
    || (t[0] != '\'' && Paired(t[1..]))
    || (|t| >= 2 && t[0] == '\'' && t[1] == '\'' && Paired(t[2..]))
  }

  /** `escapeSql`: null and undefined become `NULL`, anything else a quoted
      literal (the empty string included). */
  function EscapeSql(value: Option<string>): (r: string)
    ensures value.None? <==> r == "NULL"
    ensures value.Some? ==> |r| >= 2 && r[0] == '\'' && r[|r| - 1] == '\''
  {
    match value
    case None => "NULL"
    case Some(s) =>
      var r := "'" + Doubled(s) + "'";
      assert r[0] != "NULL"[0];
      r
  }

  lemma {:induction false} UndoubleDoubled(s: string)
    ensures Undoubled(Doubled(s)) == s
    decreases |s|
  {
    if s != [] {
      var head := if s[0] == '\'' then "''" else [s[0]];
      var t := head + Doubled(s[1..]);
      UndoubleDoubled(s[1..]);
      if s[0] == '\'' {
        assert t[2..] == Doubled(s[1..]);
      } else {
        assert t[1..] == Doubled(s[1..]);
      }
      assert s == [s[0]] + s[1..];
    }
  }

  lemma {:induction false} DoubledPaired(s: string)
    ensures Paired(Doubled(s))
    decreases |s|
  {
    if s != [] {
      var t := Doubled(s);
      DoubledPaired(s[1..]);
      if s[0] == '\'' {
        assert t[2..] == Doubled(s[1..]);
      } else {
        assert t[1..] == Doubled(s[1..]);
      }
    }
  }

  /** The literal round trip: the inside of an escaped value has its quotes in
      pairs and reads back as the value. */
  lemma EscapeSqlRoundTrip(s: string)
    ensures var r := EscapeSql(Some(s));
            && r[1..|r| - 1] == Doubled(s)
            && Paired(r[1..|r| - 1])
            && Undoubled(r[1..|r| - 1]) == s
  {
    var r := EscapeSql(Some(s));
    assert r[1..|r| - 1] == Doubled(s);
    DoubledPaired(s);
    UndoubleDoubled(s);
  }
}
