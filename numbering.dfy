/**
 * Document numbers generated when a form's number field is left blank:
 * `${prefix}-${Date.now().toString().slice(-8)}`.
 */
module Numbering {
  import opened Numbers
  import Strings

  /** The number the page generates at clock reading `now` (milliseconds). */
  function GenerateNumber(prefix: string, now: nat): (r: string)
    ensures |prefix| + 2 <= |r| <= |prefix| + 9
    ensures r[..|prefix| + 1] == prefix + "-"
  {
    prefix + "-" + Strings.SliceLast(ShowNat(now), 8)
  }

  /** The eight digits that follow the prefix and the dash. */
  function Suffix(prefix: string, now: nat): string
  {
    GenerateNumber(prefix, now)[|prefix| + 1..]
  }

  /**
   * From 10^7 ms on (every clock reading since 1970-01-01T02:46Z), a number is
   * the prefix, a dash and exactly eight digits: the clock modulo 10^8, zero
   * padded.
   */
  lemma GeneratedFormat(prefix: string, now: nat)
    requires now >= Pow10(7)
    ensures |GenerateNumber(prefix, now)| == |prefix| + 9
    ensures AllDigits(Suffix(prefix, now))
    ensures DigitsValue(Suffix(prefix, now)) == now % Pow10(8)
  {
    var s := ShowNat(now);
    ShowNatLength(now, 7);
    var r := GenerateNumber(prefix, now);
    assert Suffix(prefix, now) == s[|s| - 8..];
    SuffixValue(s, 8);
  }

  /** Two readings less than 10^8 ms (about 27.8 hours) apart give different numbers. */
  lemma GeneratedDistinct(prefix: string, t1: nat, t2: nat)
    requires Pow10(7) <= t1 < t2 < t1 + Pow10(8)
    ensures GenerateNumber(prefix, t1) != GenerateNumber(prefix, t2)
  {
    GeneratedFormat(prefix, t1);
    GeneratedFormat(prefix, t2);
    ModDistinct(t1, t2, Pow10(8));
  }

  /** Readings exactly 10^8 ms apart give the same number. */
  lemma GeneratedWraps(prefix: string, t: nat)
    requires t >= Pow10(7)
    ensures GenerateNumber(prefix, t) == GenerateNumber(prefix, t + Pow10(8))
  {
    var p := Pow10(8);
    GeneratedFormat(prefix, t);
    GeneratedFormat(prefix, t + p);
    ModShift(t, p);
    DigitsInjective(Suffix(prefix, t), Suffix(prefix, t + p));
    SameHeadSameNumber(prefix, t, t + p);
  }

  lemma ModShift(t: nat, p: nat)
    requires p > 0
    ensures (t + p) % p == t % p
  {
    DivModUnique(t + p, p, t / p + 1, t % p);
  }

  lemma SameHeadSameNumber(prefix: string, t1: nat, t2: nat)
    requires Suffix(prefix, t1) == Suffix(prefix, t2)
    ensures GenerateNumber(prefix, t1) == GenerateNumber(prefix, t2)
  {
    var a, b := GenerateNumber(prefix, t1), GenerateNumber(prefix, t2);
    assert a == a[..|prefix| + 1] + Suffix(prefix, t1);
    assert b == b[..|prefix| + 1] + Suffix(prefix, t2);
  }

  lemma ModDistinct(a: nat, b: nat, p: nat)
    requires p > 0 && a < b < a + p
    ensures a % p != b % p
  {
    if a % p == b % p {
      var q := b / p - a / p;
      assert b - a == q * p;
      if q >= 1 {
        MulAtLeast(q, p);
      }
    }
  }
}
