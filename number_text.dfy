/** The decimal text of an integer, as `Number.prototype.toString()` writes
    the integer that `Date.now()` returns, and its inverse. */
module NumberText {
  import opened JsValues

  /** The largest magnitude of an ECMAScript time value (ECMA-262, "Time
      Values and Time Range"): 8.64e15 milliseconds either side of the epoch.
      Every such integer is written without exponent notation. */
  const MaxTimeValue: int := 8_640_000_000_000_000

  predicate IsTimeValue(n: int) {
    -MaxTimeValue <= n <= MaxTimeValue
  }

  predicate IsDigit(c: char) {
    '0' <= c <= '9'
  }

  predicate AllDigits(s: string) {
    forall i :: 0 <= i < |s| ==> IsDigit(s[i])
  }

  function DigitChar(d: nat): (c: char)
    requires d < 10
    ensures IsDigit(c) && c as int - '0' as int == d
  {
    ('0' as int + d) as char
  }

  /** The number a string of decimal digits denotes, most significant first. */
  function DigitsValue(s: string): nat
    requires AllDigits(s)
  {
    if s == [] then 0
    else DigitsValue(s[..|s| - 1]) * 10 + (s[|s| - 1] as int - '0' as int)
  }

  /** Decimal digits without a leading zero; only "0" itself starts with 0. */
  predicate CanonicalDigits(s: string) {
    s != [] && AllDigits(s) && (|s| > 1 ==> s[0] != '0')
  }

  /** The text `toString` writes for an integer: canonical digits, with a
      minus sign before a non-zero magnitude. */
  predicate CanonicalInt(s: string) {
    CanonicalDigits(s) || (|s| > 1 && s[0] == '-' && CanonicalDigits(s[1..]) && s[1..] != "0")
  }

  /** The shortest decimal text of a natural number: canonical digits that
      denote `n`. */
  function Digits(n: nat): (r: string)
    ensures CanonicalDigits(r)
    ensures DigitsValue(r) == n
    ensures n > 0 ==> r[0] != '0'
    decreases n
  {
    if n < 10 then [DigitChar(n)]
    else
      var front := Digits(n / 10);
      var r := front + [DigitChar(n % 10)];
      assert r[..|r| - 1] == front;
      r
  }

  /** `n.toString()` for an integer time value: a minus sign before the
      digits of a negative number. */
  function FormatInt(n: int): (r: string)
    requires IsTimeValue(n)
  {
    if n < 0 then "-" + Digits(-n) else Digits(n)
  }

  /** Reads back an optional minus sign followed by one or more digits. */
  function ParseInt(s: string): Option<int> {
    if s != [] && s[0] == '-' then
      if |s| > 1 && AllDigits(s[1..]) then Some(0 - DigitsValue(s[1..]) as int) else None
    else if s != [] && AllDigits(s) then Some(DigitsValue(s) as int)
    else None
  }

  /** The text of a time value is canonical, and reading it back gives the
      value: distinct clock readings give distinct texts. */
  lemma FormatIntRoundTrip(n: int)
    requires IsTimeValue(n)
    ensures FormatInt(n) != [] && CanonicalInt(FormatInt(n))
    ensures ParseInt(FormatInt(n)) == Some(n)
  {
  }

  /** Digits with a non-zero leading digit denote a positive number. */
  lemma {:induction false} LeadingDigitPositive(s: string)
    requires s != [] && AllDigits(s) && s[0] != '0'
    ensures DigitsValue(s) > 0
  {
    if |s| > 1 {
      var p := s[..|s| - 1];
      assert p[0] == s[0];
      LeadingDigitPositive(p);
    }
  }

  /** Canonical digits are the one text `Digits` writes for their value. */
  lemma {:induction false} CanonicalDigitsUnique(s: string)
    requires CanonicalDigits(s)
    ensures Digits(DigitsValue(s)) == s
  {
    if |s| > 1 {
      var p := s[..|s| - 1];
      assert p[0] == s[0];
      assert CanonicalDigits(p);
      CanonicalDigitsUnique(p);
      LeadingDigitPositive(p);
      var v := DigitsValue(s);
      var d := s[|s| - 1] as int - '0' as int;
      assert v == DigitsValue(p) * 10 + d && 0 <= d < 10;
      assert v / 10 == DigitsValue(p) && v % 10 == d;
      assert DigitChar(d) == s[|s| - 1];
      assert s == p + [s[|s| - 1]];
    } else {
      assert s[..0] == [];
      assert DigitsValue(s) == s[0] as int - '0' as int;
      assert DigitChar(DigitsValue(s)) == s[0];
      assert s == [s[0]];
    }
  }

  /** A canonical integer text that reads back as a time value `n` is
      exactly the text `n.toString()` writes. */
  lemma {:induction false} CanonicalIntUnique(s: string, n: int)
    requires IsTimeValue(n)
    requires CanonicalInt(s) && ParseInt(s) == Some(n)
    ensures s == FormatInt(n)
  {
    if s[0] == '-' {
      var d := s[1..];
      assert CanonicalDigits(d) && d != "0";
      assert d[0] != '0' by {
        if |d| == 1 { assert d == [d[0]]; }
      }
      LeadingDigitPositive(d);
      CanonicalDigitsUnique(d);
      assert n == 0 - DigitsValue(d) as int && n < 0;
      assert s == "-" + d;
    } else {
      assert CanonicalDigits(s);
      CanonicalDigitsUnique(s);
    }
  }
}
