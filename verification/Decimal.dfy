/** Base-10 rendering of unsigned integers, as strconv.FormatUint(n, 10) does it. */
module Decimal {

  function Digit(d: nat): char
    requires d < 10
  {
    ('0' as int + d) as char
  }

  function Format(n: nat): (s: string)
    ensures |s| > 0
  {
    if n < 10 then [Digit(n)] else Format(n / 10) + [Digit(n % 10)]
  }

  /** The number a digit string denotes: the reference that Format is checked against. */
  function Value(s: string): int
  {
    if s == [] then 0 else 10 * Value(s[..|s| - 1]) + (s[|s| - 1] as int - '0' as int)
  }

  lemma {:induction false} ValueOfFormat(n: nat)
    ensures Value(Format(n)) == n
  {
    var s := Format(n);
    if n < 10 {
      assert s[..0] == [];
    } else {
      ValueOfFormat(n / 10);
      assert s[..|s| - 1] == Format(n / 10);
    }
  }
}
