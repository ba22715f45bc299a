/** The parts of Go's `strconv` package the validator relies on, for a
    64-bit platform (`uint` and `int` are 64 bits wide). */
module StrConv {
  import opened Wrappers

  /** Largest value of Go's `uint` (bitSize 0 on a 64-bit platform). */
  const MaxUint: nat := 0xFFFF_FFFF_FFFF_FFFF
  /** Range of Go's `int` (64 bits). */
  const MinInt: int := -0x8000_0000_0000_0000
  const MaxInt: int := 0x7FFF_FFFF_FFFF_FFFF

  predicate IsDigit(c: char) { '0' <= c <= '9' }

  function DigitValue(c: char): (d: nat)
    requires IsDigit(c)
    ensures d < 10
  {
    c as int - '0' as int
  }

  function DigitChar(d: nat): (c: char)
    requires d < 10
    ensures IsDigit(c) && DigitValue(c) == d
  {
    ('0' as int + d) as char
  }

  predicate AllDigits(s: string) {
    forall i | 0 <= i < |s| :: IsDigit(s[i])
  }

  /** Value of a string of decimal digits, most significant digit first. */
  function DecimalValue(s: string): nat
    requires AllDigits(s)
  {
    if s == [] then 0 else DecimalValue(s[..|s| - 1]) * 10 + DigitValue(s[|s| - 1])
  }

  /** `strconv.FormatUint(n, 10)`, which is also how `encoding/json` writes
      an unsigned integer. */
  function FormatUint(n: nat): (s: string)
    ensures s != [] && AllDigits(s)
    ensures |s| > 1 ==> s[0] != '0'
    ensures n == 0 <==> s == "0"
  {
    if n < 10 then [DigitChar(n)] else FormatUint(n / 10) + [DigitChar(n % 10)]
  }

  /** `strconv.Itoa(n)`, also how `encoding/json` writes an `int`. */
  function Itoa(n: int): (s: string)
    ensures s != []
  {
    if n < 0 then "-" + FormatUint(-n) else FormatUint(n)
  }

  /** `strconv.ParseUint(s, 10, 0)`: only decimal digits, at least one,
      and a value that fits in a `uint`. */
  function ParseUint(s: string): Result<nat, Error> {
    if s == [] || !AllDigits(s) then Err(SyntaxError)
    else if DecimalValue(s) > MaxUint then Err(RangeError)
    else Ok(DecimalValue(s))
  }

  /** `strconv.ParseInt(s, 10, 64)`: an optional sign, then decimal digits,
      and a value in the range of a 64-bit `int`. */
  function ParseInt(s: string): Result<int, Error> {
    var signed := s != [] && (s[0] == '-' || s[0] == '+');
    var digits := if signed then s[1..] else s;
    if digits == [] || !AllDigits(digits) then Err(SyntaxError)
    else
      var n: int := if s[0] == '-' then 0 - DecimalValue(digits) as int else DecimalValue(digits) as int;
      if n < MinInt || n > MaxInt then Err(RangeError) else Ok(n)
  }

  lemma {:induction false} FormatUintValue(n: nat)
    ensures DecimalValue(FormatUint(n)) == n
  {
    if n >= 10 {
      FormatUintValue(n / 10);
      var s := FormatUint(n);
      assert s[..|s| - 1] == FormatUint(n / 10);
    }
  }

  /** Formatting then parsing an unsigned integer gives it back. */
  lemma ParseUintFormat(n: nat)
    requires n <= MaxUint
    ensures ParseUint(FormatUint(n)) == Ok(n)
  {
    FormatUintValue(n);
  }

  /** Formatting then parsing a signed integer gives it back. */
  lemma ParseIntItoa(n: int)
    requires MinInt <= n <= MaxInt
    ensures ParseInt(Itoa(n)) == Ok(n)
  {
    if n < 0 {
      FormatUintValue(-n);
      ParseIntNegative(FormatUint(-n), -n);
    } else {
      FormatUintValue(n);
      ParseIntDigits(FormatUint(n), n);
    }
  }

  lemma ParseIntDigits(s: string, n: nat)
    requires s != [] && AllDigits(s) && DecimalValue(s) == n && n <= MaxInt
    ensures ParseInt(s) == Ok(n)
  {
    assert IsDigit(s[0]);
  }

  lemma ParseIntNegative(s: string, n: nat)
    requires s != [] && AllDigits(s) && DecimalValue(s) == n && n <= -MinInt
    ensures ParseInt("-" + s) == Ok(0 - n as int)
  {
    var t := "-" + s;
    assert t[0] == '-' && t[1..] == s;
  }

  /** Leading zeros do not change a decimal value. */
  lemma {:induction false} DecimalValueLeadingZero(s: string)
    requires AllDigits(s)
    ensures AllDigits("0" + s) && DecimalValue("0" + s) == DecimalValue(s)
  {
    var t := "0" + s;
    if s != [] {
      DecimalValueLeadingZero(s[..|s| - 1]);
      assert t[..|t| - 1] == "0" + s[..|s| - 1];
    }
  }
}
