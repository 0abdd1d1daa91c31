/**
 * Kotlin's 64-bit `Long`, its decimal rendering (`toString`, string
 * templates) and `String.toLongOrNull()`.
 */
module KotlinNumbers {
  import opened Wrappers

  const MinLong: int := -0x8000_0000_0000_0000
  const MaxLong: int := 0x7FFF_FFFF_FFFF_FFFF

  /** The values of a Kotlin `Long`. */
  type Long = x: int | MinLong <= x <= MaxLong

  predicate IsDigit(c: char) {
    '0' <= c <= '9'
  }

  predicate AllDigits(s: string) {
    forall i :: 0 <= i < |s| ==> IsDigit(s[i])
  }

  function DigitChar(d: int): (c: char)
    requires 0 <= d < 10
    ensures IsDigit(c)
  {
    ('0' as int + d) as char
  }

  function DigitValue(c: char): (d: int)
    requires IsDigit(c)
    ensures 0 <= d < 10
  {
    c as int - '0' as int
  }

  /** The number written by a run of decimal digits, most significant first. */
  function DigitsValue(s: string): nat
    requires AllDigits(s)
  {
    if s == [] then 0 else DigitsValue(s[..|s| - 1]) * 10 + DigitValue(s[|s| - 1])
  }

  /** The decimal digits of `n`, without leading zeros. */
  function NatToString(n: nat): (r: string)
    ensures |r| > 0 && AllDigits(r)
    ensures |r| > 1 ==> r[0] != '0'
  {
    if n < 10 then [DigitChar(n)] else NatToString(n / 10) + [DigitChar(n % 10)]
  }

  /** `Long.toString()`: the decimal form, with a leading '-' when negative. */
  function LongToString(n: Long): (r: string)
    ensures |r| > 0
    ensures r[0] == '-' <==> n < 0
    ensures n >= 0 ==> AllDigits(r)
    ensures n < 0 ==> |r| > 1 && AllDigits(r[1..])
  {
    if n < 0 then "-" + NatToString(-(n as int)) else NatToString(n)
  }

  /** `String.toLongOrNull()` in base 10: an optional '+' or '-', then at
      least one decimal digit and nothing else, with a value that fits in a
      `Long`; anything else is `null`. */
  function ToLongOrNull(s: string): (r: Option<Long>)
    ensures r.Some? ==> s != [] && (forall i :: 1 <= i < |s| ==> IsDigit(s[i]))
    ensures r.Some? ==> IsDigit(s[0]) || (|s| > 1 && (s[0] == '-' || s[0] == '+'))
    ensures r.Some? && s[0] != '-' ==> r.value >= 0
  {
    if s == [] then None
    else
      var unsigned := if s[0] == '-' || s[0] == '+' then s[1..] else s;
      if unsigned == [] || !AllDigits(unsigned) then None
      else
        var v: int := if s[0] == '-' then -(DigitsValue(unsigned) as int) else DigitsValue(unsigned);
        if MinLong <= v <= MaxLong then Some(v) else None
  }

  /** Reading back the digits of `n` gives `n`. */
  lemma {:induction false} DigitsOfNat(n: nat)
    ensures DigitsValue(NatToString(n)) == n
  {
    if n >= 10 {
      DigitsOfNat(n / 10);
      var s := NatToString(n);
      assert s[..|s| - 1] == NatToString(n / 10);
    }
  }

  /** `toLongOrNull` undoes `toString` on every `Long`. */
  lemma ParseOfPrint(n: Long)
    ensures ToLongOrNull(LongToString(n)) == Some(n)
  {
    var s := LongToString(n);
    if n < 0 {
      DigitsOfNat(-(n as int));
      assert s[1..] == NatToString(-(n as int));
    } else {
      DigitsOfNat(n);
    }
  }

  /** Distinct `Long`s have distinct decimal forms. */
  lemma PrintInjective(a: Long, b: Long)
    requires LongToString(a) == LongToString(b)
    ensures a == b
  {
    ParseOfPrint(a);
    ParseOfPrint(b);
  }
}
