// Base-10 rendering of unsigned integers, as strconv.FormatUint(n, 10) does it:
// the shortest digit string, "0" for zero, no sign and no leading zero.
module Decimal {

  predicate IsDigit(c: char) {
    '0' <= c <= '9'
  }

  predicate IsDigits(s: string) {
    forall i :: 0 <= i < |s| ==> IsDigit(s[i])
  }

  function DigitChar(d: nat): (c: char)
    requires d < 10
    ensures IsDigit(c) && (c == '0' <==> d == 0)
  {
    ('0' as int + d) as char
  }

  function DigitValue(c: char): (d: nat)
    requires IsDigit(c)
    ensures d < 10 && DigitChar(d) == c
  {
    c as int - '0' as int
  }

  /** strconv.FormatUint(n, 10) */
  function FormatUint(n: nat): (s: string)
    ensures |s| > 0 && IsDigits(s)
    ensures s[0] == '0' ==> n == 0 && s == "0"
    decreases n
  {
    if n < 10 then [DigitChar(n)] else FormatUint(n / 10) + [DigitChar(n % 10)]
  }

  /** Reads a digit string back as a number (most significant digit first). */
  function ParseUint(s: string): nat
    requires IsDigits(s)
  {
    if s == [] then 0 else 10 * ParseUint(s[..|s| - 1]) + DigitValue(s[|s| - 1])
  }

  /** The rendering loses nothing: reading it back gives the number. */
  lemma {:induction false} ParseFormat(n: nat)
    ensures ParseUint(FormatUint(n)) == n
    decreases n
  {
    var s := FormatUint(n);
    if n < 10 {
      assert s[..|s| - 1] == [];
    } else {
      ParseFormat(n / 10);
      assert s[..|s| - 1] == FormatUint(n / 10);
    }
  }

  /** Two numbers render alike only when they are equal. */
  lemma FormatInjective(m: nat, n: nat)
    requires FormatUint(m) == FormatUint(n)
    ensures m == n
  {
    ParseFormat(m);
    ParseFormat(n);
  }
}
