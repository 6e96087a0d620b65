/** Go's `strconv.Atoi` on a 64-bit platform, as used to gate the calendar id:
    an optional `+` or `-`, then one or more ASCII digits, with a value that fits
    in a 64-bit `int`. `strconv.Itoa` is its inverse. */
module Numeric {
  import opened Wrappers

  const MinInt: int := -0x8000_0000_0000_0000
  const MaxInt: int := 0x7fff_ffff_ffff_ffff

  predicate IsDigit(c: char)
  {
    '0' <= c <= '9'
  }

  predicate AllDigits(s: string)
  {
    forall i | 0 <= i < |s| :: IsDigit(s[i])
  }

  predicate IsSign(c: char)
  {
    c == '+' || c == '-'
  }

  /** The syntax `Atoi` accepts: an optional sign followed by at least one digit. */
  predicate IsNumeral(s: string)
  {
    |s| > 0 &&
    if IsSign(s[0]) then |s| > 1 && AllDigits(s[1..]) else AllDigits(s)
  }

  function Pow10(n: nat): (r: nat)
    ensures r >= 1
  {
    if n == 0 then 1 else 10 * Pow10(n - 1)
  }

  /** The value of a string of decimal digits, most significant first. */
  function Unsigned(ds: string): nat
    requires AllDigits(ds)
    decreases |ds|
  {
    if ds == [] then 0
    else Unsigned(ds[..|ds| - 1]) * 10 + (ds[|ds| - 1] as int - '0' as int)
  }

  lemma {:induction false} UnsignedBound(ds: string)
    requires AllDigits(ds)
    ensures Unsigned(ds) < Pow10(|ds|)
    decreases |ds|
  {
    if ds != [] {
      UnsignedBound(ds[..|ds| - 1]);
    }
  }

  /** The digits of a numeral, without its sign. */
  function Magnitude(s: string): (ds: string)
    requires IsNumeral(s)
    ensures 0 < |ds| <= |s| && AllDigits(ds)
  {
    if IsSign(s[0]) then s[1..] else s
  }

  /** The integer a numeral denotes, of any size. */
  function Value(s: string): int
    requires IsNumeral(s)
  {
    if s[0] == '-' then -(Unsigned(Magnitude(s)) as int) else Unsigned(Magnitude(s))
  }

  /** `strconv.Atoi(s)`: `None` stands for the syntax and range errors. A string
      is accepted exactly when it is a numeral whose value fits in 64 bits, and
      then that value is returned; every numeral of fewer than 19 characters
      fits (Go's fast path). */
  function Atoi(s: string): (r: Option<int>)
    ensures r.Some? <==> IsNumeral(s) && MinInt <= Value(s) <= MaxInt
    ensures r.Some? ==> r.value == Value(s)
    ensures IsNumeral(s) && |s| < 19 ==> r.Some?
  {
    if !IsNumeral(s) then None
    else if |s| < 19 then
      var ds := Magnitude(s);
      UnsignedBound(ds);
      Pow10Monotone(|ds|, 18);
      Pow10Eighteen();
      Some(Value(s))
    else if MinInt <= Value(s) <= MaxInt then Some(Value(s))
    else None
  }

  lemma {:induction false} UnsignedLowerBound(ds: string)
    requires AllDigits(ds) && |ds| > 0 && ds[0] != '0'
    ensures Unsigned(ds) >= Pow10(|ds| - 1)
    decreases |ds|
  {
    if |ds| > 1 {
      UnsignedLowerBound(ds[..|ds| - 1]);
    }
  }

  /** A numeral with twenty or more significant digits is out of range, so
      `Atoi` rejects it whatever its sign. */
  lemma LongNumeralRejected(s: string)
    requires IsNumeral(s) && Magnitude(s)[0] != '0' && |Magnitude(s)| >= 20
    ensures Atoi(s) == None
  {
    var ds := Magnitude(s);
    UnsignedLowerBound(ds);
    Pow10Monotone(19, |ds| - 1);
    Pow10Eighteen();
  }

  lemma {:induction false} Pow10Monotone(m: nat, n: nat)
    requires m <= n
    ensures Pow10(m) <= Pow10(n)
    decreases n
  {
    if m < n {
      Pow10Monotone(m, n - 1);
    }
  }

  lemma Pow10Eighteen()
    ensures Pow10(18) == 1_000_000_000_000_000_000
  {
    assert Pow10(6) == 1_000_000;
    assert Pow10(12) == 1_000_000_000_000;
  }

  function DigitChar(d: nat): (c: char)
    requires d < 10
    ensures IsDigit(c) && c as int - '0' as int == d
  {
    ('0' as int + d) as char
  }

  /** The decimal digits of `n`, without leading zeros. */
  function Digits(n: nat): string
    decreases n
  {
    if n < 10 then [DigitChar(n)] else Digits(n / 10) + [DigitChar(n % 10)]
  }

  /** `strconv.Itoa(n)`. */
  function Itoa(n: int): string
  {
    if n < 0 then "-" + Digits(-n) else Digits(n)
  }

  lemma {:induction false} DigitsValue(n: nat)
    ensures |Digits(n)| >= 1 && AllDigits(Digits(n)) && Unsigned(Digits(n)) == n
    decreases n
  {
    if n >= 10 {
      DigitsValue(n / 10);
      var ds := Digits(n);
      assert ds[..|ds| - 1] == Digits(n / 10);
    }
  }

  /** `Atoi` reads back every 64-bit integer `Itoa` writes. */
  lemma AtoiItoa(n: int)
    requires MinInt <= n <= MaxInt
    ensures Atoi(Itoa(n)) == Some(n)
  {
    if n < 0 {
      DigitsValue(-n);
      assert Magnitude(Itoa(n)) == Digits(-n);
    } else {
      DigitsValue(n);
    }
  }
}
