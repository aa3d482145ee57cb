/** The string operations that several components share. */
module Text {
  import opened Common

  /** What stands before the first c, all of s if there is none. */
  function Before(s: string, c: char): (r: string)
    ensures c !in r
  {
    if s == "" || s[0] == c then "" else [s[0]] + Before(s[1..], c)
  }

  /** What stands after the last c, if there is one. */
  function AfterLast(s: string, c: char): (r: Option<string>)
    ensures r.Some? ==> c !in r.value && |r.value| < |s|
    ensures r.Some? <==> c in s
  {
    if s == "" then None
    else if Last(s) == c then Some("")
    else
      var r := AfterLast(s[..|s| - 1], c);
      assert s == s[..|s| - 1] + [Last(s)];
      if r.None? then None else Some(r.value + [Last(s)])
  }

  lemma {:induction false} BeforeIs(a: string, c: char, b: string)
    requires c !in a
    ensures Before(a + [c] + b, c) == a
  {
    if a == "" {
      assert (a + [c] + b)[0] == c;
    } else {
      BeforeIs(a[1..], c, b);
      assert (a + [c] + b)[1..] == a[1..] + [c] + b;
    }
  }

  lemma {:induction false} BeforeNone(a: string, c: char)
    requires c !in a
    ensures Before(a, c) == a
  {
    if a != "" {
      BeforeNone(a[1..], c);
    }
  }

  lemma {:induction false} AfterLastIs(a: string, c: char, b: string)
    requires c !in b
    ensures AfterLast(a + [c] + b, c) == Some(b)
  {
    var s := a + [c] + b;
    if b == "" {
      assert Last(s) == c;
    } else {
      AfterLastIs(a, c, b[..|b| - 1]);
      assert Last(s) == Last(b) && b == b[..|b| - 1] + [Last(b)];
      assert s[..|s| - 1] == a + [c] + b[..|b| - 1];
    }
  }

  /** A text with one separator splits in one way, if the first part is free
      of the separator, or if the second is. */
  lemma SplitsOnce(a: string, b: string, c: char, x: string, y: string)
    requires a + [c] + b == x + [c] + y
    requires (c !in a && c !in x) || (c !in b && c !in y)
    ensures a == x && b == y
  {
    if c !in a && c !in x {
      BeforeIs(a, c, b);
      BeforeIs(x, c, y);
    } else {
      AfterLastIs(a, c, b);
      AfterLastIs(x, c, y);
      assert |a| == |x|;
      assert a == (a + [c] + b)[..|a|] == x;
    }
    assert b == (a + [c] + b)[|a| + 1..] == y;
  }

  function Digit(n: nat): (c: char)
    requires n < 10
    ensures '0' <= c <= '9'
  {
    '0' + n as char
  }

  function Decimal(n: nat): (s: string)
    ensures s != "" && forall c | c in s :: '0' <= c <= '9'
  {
    if n < 10 then [Digit(n)] else Decimal(n / 10) + [Digit(n % 10)]
  }

  lemma {:induction false} DecimalInjective(m: nat, n: nat)
    requires Decimal(m) == Decimal(n)
    ensures m == n
  {
    assert Last(Decimal(m)) == Digit(m % 10) && Last(Decimal(n)) == Digit(n % 10);
    if m >= 10 && n >= 10 {
      var s := Decimal(m);
      assert s[..|s| - 1] == Decimal(m / 10) && s[..|s| - 1] == Decimal(n / 10);
      DecimalInjective(m / 10, n / 10);
    }
  }

  /** What a row of decimal digits stands for. */
  function ValueOf(s: string): int {
    if s == "" then 0 else 10 * ValueOf(s[..|s| - 1]) + (Last(s) as int - '0' as int)
  }

  lemma {:induction false} DecimalValue(n: nat)
    ensures ValueOf(Decimal(n)) == n
    ensures n > 0 ==> Decimal(n)[0] != '0'
  {
    if n >= 10 {
      DecimalValue(n / 10);
      var s := Decimal(n);
      assert s[..|s| - 1] == Decimal(n / 10);
    } else {
      assert Decimal(n)[..0] == "";
    }
  }
}
