/**
 * Decimal text for integers: the `%d` verb of fmt and strconv.Atoi, as the
 * service uses them for batch file names and for the `limit` query parameter.
 */
module Decimal {
  import opened Wrappers

  /** Bounds of Go's `int` on a 64-bit host, which strconv.Atoi enforces. */
  const Int64Min: int := -0x8000_0000_0000_0000
  const Int64Max: int := 0x7FFF_FFFF_FFFF_FFFF

  predicate IsDigit(c: char) {
    '0' <= c <= '9'
  }

  predicate AllDigits(s: string) {
    forall k :: 0 <= k < |s| ==> IsDigit(s[k])
  }

  function DigitValue(c: char): (d: nat)
    requires IsDigit(c)
    ensures d < 10
  {
    c as int - '0' as int
  }

  function DigitChar(d: nat): (c: char)
    requires d < 10
    ensures IsDigit(c) && DigitValue(c) == d
  {
    ('0' as int + d) as char
  }

  /** The number a string of decimal digits denotes, most significant digit first. */
  function DigitsValue(s: string): nat
    requires AllDigits(s)
  {
    if s == [] then 0 else DigitsValue(s[..|s| - 1]) * 10 + DigitValue(s[|s| - 1])
  }

  /** `%d` of a natural number: non-empty, digits only, no leading zero, and it denotes n. */
  function NatToDecimal(n: nat): (r: string)
    ensures |r| > 0 && AllDigits(r)
    ensures r[0] == '0' ==> n == 0
    ensures DigitsValue(r) == n
    decreases n
  {
    if n < 10 then [DigitChar(n)]
    else
      var prefix := NatToDecimal(n / 10);
      var r := prefix + [DigitChar(n % 10)];
      assert r[..|r| - 1] == prefix;
      r
  }

  /** `%d` of any integer: a leading '-' for negative values. */
  function IntToDecimal(v: int): (r: string)
    ensures |r| > 0
  {
    if v < 0 then "-" + NatToDecimal(-v) else NatToDecimal(v)
  }

  /**
   * strconv.Atoi: an optional '+' or '-', then one or more ASCII digits (leading
   * zeros allowed), denoting a value inside Go's 64-bit `int`; anything else is
   * an error, modelled as None.
   */
  function Atoi(s: string): (r: Option<int>)
    ensures r.Some? ==> Int64Min <= r.value <= Int64Max
    ensures s == "" || s == "+" || s == "-" ==> r.None?
    ensures s != "" && AllDigits(s) && DigitsValue(s) <= Int64Max ==> r == Some(DigitsValue(s))
    ensures |s| > 1 && s[0] == '+' && AllDigits(s[1..]) && DigitsValue(s[1..]) <= Int64Max ==>
      r == Some(DigitsValue(s[1..]))
    ensures |s| > 1 && s[0] == '-' && AllDigits(s[1..]) && DigitsValue(s[1..]) <= -Int64Min ==>
      r == Some(-(DigitsValue(s[1..]) as int))
    ensures r.Some? ==>
      && |s| > 0
      && var digits := if s[0] == '-' || s[0] == '+' then s[1..] else s;
         && digits != [] && AllDigits(digits)
         && r.value == if s[0] == '-' then -(DigitsValue(digits) as int) else DigitsValue(digits)
  {
    if s == [] then None
    else
      var digits := if s[0] == '-' || s[0] == '+' then s[1..] else s;
      if digits == [] || !AllDigits(digits) then None
      else
        var v: int := if s[0] == '-' then -(DigitsValue(digits) as int) else DigitsValue(digits);
        if Int64Min <= v <= Int64Max then Some(v) else None
  }

  /** Parsing the decimal text of any 64-bit integer gives that integer back. */
  lemma AtoiOfDecimal(v: int)
    requires Int64Min <= v <= Int64Max
    ensures Atoi(IntToDecimal(v)) == Some(v)
  {
    if v < 0 {
      var digits := NatToDecimal(-v);
      assert ("-" + digits)[1..] == digits;
    }
  }

  /** Distinct numbers have distinct decimal texts. */
  lemma NatToDecimalInjective(m: nat, n: nat)
    requires NatToDecimal(m) == NatToDecimal(n)
    ensures m == n
  {
  }
}
