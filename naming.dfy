/**
 * Names of new volumes: "Drive" followed by a count written in decimal,
 * as `format!("Drive{}", count)` renders an unsigned integer (no sign, no
 * leading zeros).
 */
module Naming {

  predicate IsDigits(s: string) {
    forall i :: 0 <= i < |s| ==> '0' <= s[i] <= '9'
  }

  function DigitChar(d: nat): char
    requires d < 10
  {
    ('0' as int + d) as char
  }

  function DigitValue(c: char): nat
    requires '0' <= c <= '9'
  {
    c as int - '0' as int
  }

  /** The decimal rendering of `n`. */
  function Decimal(n: nat): (s: string)
    ensures |s| >= 1 && IsDigits(s)
    ensures s[0] == '0' <==> n == 0
    decreases n
  {
    if n < 10 then [DigitChar(n)] else Decimal(n / 10) + [DigitChar(n % 10)]
  }

  /** Reads a string of decimal digits back as a number (reference definition). */
  function ParseDecimal(s: string): nat
    requires IsDigits(s)
    decreases |s|
  {
    if s == [] then 0 else 10 * ParseDecimal(s[..|s| - 1]) + DigitValue(s[|s| - 1])
  }

  lemma {:induction false} ParseDecimalInverts(n: nat)
    ensures ParseDecimal(Decimal(n)) == n
    decreases n
  {
    var s := Decimal(n);
    if n >= 10 {
      assert s[..|s| - 1] == Decimal(n / 10);
      ParseDecimalInverts(n / 10);
    } else {
      assert s[..|s| - 1] == [];
    }
  }

  /** The name given to a new volume when `count` is the number counted before it. */
  function DriveName(count: nat): (name: string)
    ensures |name| > 5 && name[..5] == "Drive" && name[5..] == Decimal(count)
  {
    "Drive" + Decimal(count)
  }

  /** Different counts always give different volume names. */
  lemma DriveNameInjective(m: nat, n: nat)
    ensures DriveName(m) == DriveName(n) <==> m == n
  {
    if DriveName(m) == DriveName(n) {
      assert Decimal(m) == Decimal(n);
      ParseDecimalInverts(m);
      ParseDecimalInverts(n);
    }
  }
}
