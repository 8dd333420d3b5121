/** Go's fixed-width integers as the hook uses them, and the `%d` rendering
    of a record id that the delete request carries. */
module Numbers {

  /** Go's `int64`: record ids, priorities and TTLs. */
  type Int64 = x: int | -0x8000_0000_0000_0000 <= x < 0x8000_0000_0000_0000

  /** Go's `uint64`: what the priority decoder first reads a number into. */
  type Uint64 = x: int | 0 <= x < 0x1_0000_0000_0000_0000

  const Modulus64: int := 0x1_0000_0000_0000_0000

  /** The conversion `PriorityValue(n)` of a `uint64` into an `int64`: the
      low 64 bits are kept, so values from 2^63 up wrap to negatives. */
  function Int64OfUint64(n: Uint64): (r: Int64)
    ensures (n - r) % Modulus64 == 0
    ensures n < 0x8000_0000_0000_0000 <==> r == n
  {
    if n < 0x8000_0000_0000_0000 then n else n - Modulus64
  }

  predicate IsDigit(c: char) {
    '0' <= c <= '9'
  }

  predicate AllDigits(s: string) {
    forall i :: 0 <= i < |s| ==> IsDigit(s[i])
  }

  function DigitValue(c: char): (d: nat)
    requires IsDigit(c)
    ensures d < 10
  {
    c as int - '0' as int
  }

  function DigitChar(d: nat): (c: char)
    requires d < 10
    ensures IsDigit(c) && DigitValue(c) == d
  {
    ('0' as int + d) as char
  }

  /** The decimal digits of `n`, most significant first, without leading
      zeros. */
  function NatDigits(n: nat): (s: string)
    ensures |s| > 0 && AllDigits(s)
    ensures s[0] == '0' <==> n == 0
    decreases n
  {
    if n < 10 then [DigitChar(n)] else NatDigits(n / 10) + [DigitChar(n % 10)]
  }

  /** What `fmt.Sprintf("%d", n)` gives for an integer: an optional minus
      sign followed by the digits of its magnitude, in canonical form (no
      leading zero, no "-0"). */
  function FormatDecimal(n: int): (s: string)
    ensures IsDecimal(s)
    ensures s[0] == '-' <==> n < 0
    ensures s[0] != '-' && |s| > 1 ==> s[0] != '0'
    ensures s[0] == '-' ==> s[1] != '0'
  {
    if n < 0 then "-" + NatDigits(-n) else NatDigits(n)
  }

  /** A decimal integer literal: digits, optionally after one minus sign. */
  predicate IsDecimal(s: string) {
    if |s| > 0 && s[0] == '-' then |s| > 1 && AllDigits(s[1..]) else |s| > 0 && AllDigits(s)
  }

  /** Reads a run of digits, as the provider reads a `record_id`. */
  function ParseNat(s: string): nat
    requires AllDigits(s)
  {
    if s == [] then 0 else ParseNat(s[..|s| - 1]) * 10 + DigitValue(s[|s| - 1])
  }

  function ParseDecimal(s: string): int
    requires IsDecimal(s)
  {
    if s[0] == '-' then 0 - ParseNat(s[1..]) as int else ParseNat(s)
  }

  lemma {:induction false} ParseNatDigits(n: nat)
    ensures ParseNat(NatDigits(n)) == n
    decreases n
  {
    var s := NatDigits(n);
    if n >= 10 {
      ParseNatDigits(n / 10);
      assert s[..|s| - 1] == NatDigits(n / 10);
    }
  }

  /** Reading back what `%d` printed gives the same integer, so the printed
      form of a record id names that record id and no other. */
  lemma ParseFormatDecimal(n: int)
    ensures ParseDecimal(FormatDecimal(n)) == n
  {
    if n < 0 {
      ParseNatDigits(-n);
      assert FormatDecimal(n)[1..] == NatDigits(-n);
    } else {
      ParseNatDigits(n);
    }
  }

  lemma FormatDecimalInjective(a: int, b: int)
    ensures FormatDecimal(a) == FormatDecimal(b) ==> a == b
  {
    ParseFormatDecimal(a);
    ParseFormatDecimal(b);
  }
}
