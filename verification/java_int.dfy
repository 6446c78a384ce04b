/**
 * The pieces of Java `int` behaviour that the notification code relies on:
 * the 32-bit range with two's-complement wrap-around, the truncating
 * `(int)` cast of a quotient, and the decimal text that string
 * concatenation produces for an `int`.
 */
module JavaInt {
  import opened Options

  const INT_MIN: int := -0x8000_0000
  const INT_MAX: int := 0x7fff_ffff
  const TWO_32: int := 0x1_0000_0000

  /** The values of a Java `int`. */
  type Int32 = x: int | INT_MIN <= x <= INT_MAX

  /** Two's-complement wrap-around of a mathematical integer into a Java `int`. */
  function Wrap(x: int): (r: Int32)
    ensures (r - x) % TWO_32 == 0
    ensures INT_MIN <= x <= INT_MAX ==> r == x
  {
    var k := (x - INT_MIN) / TWO_32;
    assert x - INT_MIN == k * TWO_32 + (x - INT_MIN) % TWO_32;
    (x - INT_MIN) % TWO_32 + INT_MIN
  }

  /**
   * Division by a positive divisor rounding toward zero, which is what Java's
   * `(int)` cast does to a quotient. Dafny's own `/` rounds toward negative
   * infinity for a negative dividend, so the two differ there.
   */
  function TruncDiv(n: int, d: int): (q: int)
    requires d > 0
    ensures n >= 0 ==> 0 <= n - q * d < d
    ensures n < 0 ==> -d < n - q * d <= 0
  {
    if n >= 0 then n / d else -((-n) / d)
  }

  predicate IsDigit(c: char) {
    '0' <= c <= '9'
  }

  function DigitChar(k: nat): (c: char)
    requires k < 10
    ensures IsDigit(c)
  {
    ('0' as int + k) as char
  }

  function DigitValue(c: char): (k: nat)
    requires IsDigit(c)
    ensures k < 10 && DigitChar(k) == c
  {
    (c as int - '0' as int) as nat
  }

  /** Decimal digits of a natural number, most significant first, without leading zeros. */
  function NatToString(n: nat): (s: string)
    ensures |s| >= 1
    ensures forall i :: 0 <= i < |s| ==> IsDigit(s[i])
    ensures s[0] == '0' <==> n == 0
    ensures n == 0 ==> s == "0"
  {
    if n < 10 then [DigitChar(n)] else NatToString(n / 10) + [DigitChar(n % 10)]
  }

  /** The text Java's string concatenation produces for an `int`: a minus sign, then the digits. */
  function IntToString(i: int): (s: string)
    ensures |s| >= 1
    ensures s[0] == '-' <==> i < 0
  {
    if i < 0 then "-" + NatToString(-i) else NatToString(i)
  }

  /** Reads an unsigned decimal numeral; `None` for anything that is not one. */
  function ParseNat(s: string): (r: Option<nat>)
    ensures r.Some? ==> |s| >= 1
  {
    if |s| == 0 || !IsDigit(s[|s| - 1]) then None
    else if |s| == 1 then Some(DigitValue(s[0]))
    else match ParseNat(s[..|s| - 1])
      case None => None
      case Some(high) => Some(high * 10 + DigitValue(s[|s| - 1]))
  }

  /** Reads an optionally signed decimal numeral; `None` for anything that is not one. */
  function ParseInt(s: string): Option<int> {
    if |s| >= 1 && s[0] == '-' then
      match ParseNat(s[1..])
      case None => None
      case Some(n) => Some(0 - n as int)
    else
      match ParseNat(s)
      case None => None
      case Some(n) => Some(n as int)
  }

  lemma {:induction false} ParseNatToString(n: nat)
    ensures ParseNat(NatToString(n)) == Some(n)
  {
    var s := NatToString(n);
    if n >= 10 {
      var high := NatToString(n / 10);
      assert s[..|s| - 1] == high;
      assert s[|s| - 1] == DigitChar(n % 10);
      ParseNatToString(n / 10);
    }
  }

  /** The decimal text of an `int` reads back as that `int`. */
  lemma ParseIntToString(i: int)
    ensures ParseInt(IntToString(i)) == Some(i)
  {
    if i < 0 {
      assert IntToString(i)[1..] == NatToString(-i);
      ParseNatToString(-i);
    } else {
      ParseNatToString(i);
    }
  }

}
