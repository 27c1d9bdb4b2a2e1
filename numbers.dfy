/**
 * Decimal text and numbers: `toString` on the numbers the store returns and
 * `parseInt`/`parseFloat` on the strings a form holds.
 *
 * A stored number is a `Decimal` (an integer count of units of 10^-scale):
 * every finite double has a terminating decimal expansion, so this loses no
 * stored value. The parsers accept well-formed decimals only,
 * `-?digits` and `-?digits.digits`; anything else is NaN.
 */
module Numbers {
  import opened Js
  import Strings

  function Pow10(n: nat): (r: nat)
    ensures r >= 1
    ensures n >= 1 ==> r >= 10
  {
    if n == 0 then 1 else 10 * Pow10(n - 1)
  }

  predicate IsDigit(c: char) { '0' <= c <= '9' }

  predicate AllDigits(s: string) { forall i :: 0 <= i < |s| ==> IsDigit(s[i]) }

  function DigitChar(d: nat): (c: char)
    requires d < 10
    ensures IsDigit(c)
  {
    ('0' as int + d) as char
  }

  function DigitValue(c: char): (d: nat)
    requires IsDigit(c)
    ensures d < 10
  {
    c as int - '0' as int
  }

  /** The value of a string of decimal digits, leading zeros allowed. */
  function DigitsValue(s: string): (v: nat)
    requires AllDigits(s)
  {
    if s == [] then 0 else 10 * DigitsValue(s[..|s| - 1]) + DigitValue(s[|s| - 1])
  }

  /** `n.toString()` for a natural number: its decimal digits, which read back as n. */
  function ShowNat(n: nat): (s: string)
    ensures 1 <= |s| && AllDigits(s)
    ensures DigitsValue(s) == n
  {
    if n < 10 then [DigitChar(n)]
    else
      var s := ShowNat(n / 10) + [DigitChar(n % 10)];
      assert s[..|s| - 1] == ShowNat(n / 10);
      s
  }

  /** A number has at most k digits exactly when it is below 10^k. */
  lemma {:induction false} ShowNatLength(n: nat, k: nat)
    requires k >= 1
    ensures |ShowNat(n)| <= k <==> n < Pow10(k)
    decreases n
  {
    if n >= 10 && k >= 2 {
      ShowNatLength(n / 10, k - 1);
    }
  }

  /** Euclidean division is determined by any decomposition with an in-range remainder. */
  lemma DivModUnique(x: int, m: int, q: int, r: int)
    requires m > 0 && 0 <= r < m && x == q * m + r
    ensures x / m == q && x % m == r
  {
    var q', r' := x / m, x % m;
    assert x == q' * m + r';
    if q' < q {
      assert (q - q') * m == r' - r by { assert q * m - q' * m == (q - q') * m; }
      MulAtLeast(q - q', m);
    } else if q' > q {
      assert (q' - q) * m == r - r' by { assert q' * m - q * m == (q' - q) * m; }
      MulAtLeast(q' - q, m);
    }
  }

  lemma MulAtLeast(a: int, m: int)
    requires a >= 1 && m > 0
    ensures a * m >= m
  {
    assert a * m == (a - 1) * m + m;
    assert (a - 1) * m >= 0;
  }

  /** The last k digits of a digit string carry its value modulo 10^k. */
  lemma {:induction false} SuffixValue(s: string, k: nat)
    requires AllDigits(s) && k <= |s|
    ensures DigitsValue(s[|s| - k..]) == DigitsValue(s) % Pow10(k)
    decreases k
  {
    var n := |s|;
    if k == 0 {
      assert s[n..] == [];
    } else {
      var init := s[..n - 1];
      var t := s[n - k..];
      assert t[..|t| - 1] == init[|init| - (k - 1)..];
      assert t[|t| - 1] == s[n - 1];
      SuffixValue(init, k - 1);
      var a, d, p := DigitsValue(init), DigitValue(s[n - 1]), Pow10(k - 1);
      assert DigitsValue(s) == 10 * a + d;
      assert DigitsValue(t) == 10 * (a % p) + d;
      ShiftMod(a, d, p);
    }
  }

  /** Appending a digit to both a number and its modulus appends it to the remainder. */
  lemma ShiftMod(a: nat, d: nat, p: nat)
    requires p > 0 && d < 10
    ensures (10 * a + d) % (10 * p) == 10 * (a % p) + d
  {
    var q, r := a / p, a % p;
    assert a == q * p + r;
    assert 10 * a + d == q * (10 * p) + (10 * r + d);
    DivModUnique(10 * a + d, 10 * p, q, 10 * r + d);
  }

  /** Digit strings of equal length and equal value are equal. */
  lemma {:induction false} DigitsInjective(a: string, b: string)
    requires AllDigits(a) && AllDigits(b) && |a| == |b|
    requires DigitsValue(a) == DigitsValue(b)
    ensures a == b
    decreases |a|
  {
    if a != [] {
      var n := |a|;
      LastDigitSplit(a);
      LastDigitSplit(b);
      DigitsInjective(a[..n - 1], b[..n - 1]);
      assert a == a[..n - 1] + [a[n - 1]];
      assert b == b[..n - 1] + [b[n - 1]];
    }
  }

  /** The value of a non-empty digit string splits into its init's value and its last digit. */
  lemma LastDigitSplit(a: string)
    requires AllDigits(a) && a != []
    ensures DigitsValue(a) / 10 == DigitsValue(a[..|a| - 1])
    ensures DigitsValue(a) % 10 == DigitValue(a[|a| - 1])
  {
    DivModUnique(DigitsValue(a), 10, DigitsValue(a[..|a| - 1]), DigitValue(a[|a| - 1]));
  }

  function Zeros(n: nat): (z: string)
    ensures |z| == n && AllDigits(z)
  {
    seq(n, _ => '0')
  }

  lemma {:induction false} ZerosValue(n: nat)
    ensures DigitsValue(Zeros(n)) == 0
  {
    if n > 0 {
      assert Zeros(n)[..n - 1] == Zeros(n - 1);
      ZerosValue(n - 1);
    }
  }

  /** Leading zeros do not change a digit string's value. */
  lemma {:induction false} LeadingZerosValue(z: nat, s: string)
    requires AllDigits(s)
    ensures DigitsValue(Zeros(z) + s) == DigitsValue(s)
    decreases |s|
  {
    if s == [] {
      assert Zeros(z) + s == Zeros(z);
      ZerosValue(z);
    } else {
      var t := Zeros(z) + s;
      assert t[..|t| - 1] == Zeros(z) + s[..|s| - 1];
      LeadingZerosValue(z, s[..|s| - 1]);
    }
  }

  /** `s` left-padded with '0' to width k. */
  function PadLeft(s: string, k: nat): (r: string)
    requires AllDigits(s)
    ensures AllDigits(r) && |r| == if |s| < k then k else |s|
    ensures DigitsValue(r) == DigitsValue(s)
  {
    LeadingZerosValue(if |s| < k then k - |s| else 0, s);
    Zeros(if |s| < k then k - |s| else 0) + s
  }

  // ---------------------------------------------------------------- integers

  function Abs(i: int): nat { if i < 0 then -i else i }

  /** `i.toString()` for an integer. */
  function ShowInt(i: int): (s: string)
    ensures |s| >= 1
  {
    if i < 0 then "-" + ShowNat(-i) else ShowNat(i)
  }

  // ---------------------------------------------------------------- decimals

  /** A finite number: units * 10^-scale. */
  datatype Decimal = Decimal(units: int, scale: nat)

  function Value(d: Decimal): real
  {
    d.units as real / Pow10(d.scale) as real
  }

  /** Drops trailing zero digits after the point; the value is unchanged. */
  function Normalize(d: Decimal): (n: Decimal)
    ensures Value(n) == Value(d)
    ensures n.scale == 0 || n.units % 10 != 0
    decreases d.scale
  {
    if d.scale > 0 && d.units % 10 == 0 then
      var e := Decimal(d.units / 10, d.scale - 1);
      assert d.units == 10 * e.units;
      assert Pow10(d.scale) == 10 * Pow10(e.scale);
      assert Value(e) == Value(d) by {
        var p := Pow10(e.scale) as real;
        assert Value(d) == (10 * e.units) as real / (10.0 * p);
      }
      Normalize(e)
    else d
  }

  /** The digits after the point of a decimal whose magnitude is m. */
  function Fraction(m: nat, scale: nat): string
  {
    if scale == 0 then "" else "." + PadLeft(ShowNat(FracPart(m, Pow10(scale))), scale)
  }

  /** The text of a decimal, keeping its scale. */
  function Render(d: Decimal): string
  {
    (if d.units < 0 then "-" else "") + Unsigned(Abs(d.units), d.scale)
  }

  /** The text of a decimal's magnitude m at the given scale. */
  function Unsigned(m: nat, scale: nat): (t: string)
    ensures |t| > 0 && IsDigit(t[0])
  {
    ShowNat(IntPart(m, Pow10(scale))) + Fraction(m, scale)
  }

  /** The digits before the point: m / p for a positive p. */
  function IntPart(m: nat, p: nat): nat
    requires p > 0
  {
    m / p
  }

  /** The digits after the point: m % p for a positive p. */
  function FracPart(m: nat, p: nat): (r: nat)
    requires p > 0
    ensures r < p
  {
    m % p
  }

  /** `x.toString()` for a stored number, in plain (non-exponent) notation. */
  function ShowDecimal(d: Decimal): (s: string)
    ensures |s| >= 1
    ensures ParseDecimal(s) == Some(Normalize(d))
  {
    ParseRender(Normalize(d));
    Render(Normalize(d))
  }

  /** The text of an unsigned decimal: `digits` or `digits.digits`. */
  function ParseUnsigned(s: string): Option<Decimal>
  {
    var ip := Strings.SplitFirst(s, '.');
    if |ip| == 0 || !AllDigits(ip) then None
    else if |ip| == |s| then Some(Decimal(DigitsValue(ip), 0))
    else
      var fp := s[|ip| + 1..];
      if |fp| == 0 || !AllDigits(fp) then None
      else Some(Decimal(Shift(DigitsValue(ip), |fp|) + DigitsValue(fp), |fp|))
  }

  /** A well-formed decimal `-?digits(.digits)?`, read exactly. */
  function ParseDecimal(s: string): Option<Decimal>
  {
    if |s| > 0 && s[0] == '-' then
      match ParseUnsigned(s[1..])
      case Some(d) => Some(Decimal(-d.units, d.scale))
      case None => None
    else ParseUnsigned(s)
  }

  /** `parseFloat(s)` on a well-formed decimal; the empty string and malformed text give NaN. */
  function ParseFloat(s: string): (n: JsNumber)
    ensures s == "" ==> n == NaN
  {
    match ParseDecimal(s)
    case Some(d) => Num(Value(d))
    case None => NaN
  }

  /** A decimal truncated toward zero: the integer part `parseInt` keeps. */
  function Truncate(d: Decimal): (i: int)
    ensures d.units >= 0 ==> 0 <= i && i as real <= Value(d) < i as real + 1.0
    ensures d.units < 0 ==> i <= 0 && i as real - 1.0 < Value(d) <= i as real
  {
    var u, p := Abs(d.units), Pow10(d.scale);
    QuotientBounds(u, p);
    if d.units < 0 then
      assert Value(d) == -(u as real / p as real);
      -(u / p)
    else u / p
  }

  /** Integer division of naturals is the floor of real division. */
  lemma QuotientBounds(u: nat, p: nat)
    requires p > 0
    ensures (u / p) as real <= u as real / p as real < (u / p) as real + 1.0
  {
    var q, r, pr := u / p, u % p, p as real;
    assert u as real == q as real * pr + r as real;
    assert u as real / pr == q as real + r as real / pr;
    assert 0.0 <= r as real / pr < 1.0;
  }

  /** A decimal's value has the sign of its units. */
  lemma ValueSign(d: Decimal)
    ensures d.units >= 0 <==> Value(d) >= 0.0
  {
  }

  /**
   * `parseInt(s)` on a well-formed decimal `-?digits(.digits)?`: the digits
   * before the point, with the sign; None stands for NaN. It accepts the
   * same text as `parseFloat` and truncates that value toward zero.
   */
  function ParseInt(s: string): (r: Option<int>)
    ensures r.Some? <==> ParseFloat(s).Num?
    ensures r.Some? && ParseFloat(s).value >= 0.0 ==>
      0 <= r.value && r.value as real <= ParseFloat(s).value < r.value as real + 1.0
    ensures r.Some? && ParseFloat(s).value < 0.0 ==>
      r.value <= 0 && r.value as real - 1.0 < ParseFloat(s).value <= r.value as real
    ensures s == "" ==> r == None
  {
    match ParseDecimal(s)
    case Some(d) => ValueSign(d); Some(Truncate(d))
    case None => None
  }

  /** `parseInt(s)` as a JavaScript number. */
  function ParseIntNumber(s: string): JsNumber
  {
    match ParseInt(s)
    case Some(i) => Num(i as real)
    case None => NaN
  }

  /** An integer's decimal text reads as that integer with no fraction. */
  lemma ParseShowIntDecimal(i: int)
    ensures ParseDecimal(ShowInt(i)) == Some(Decimal(i, 0))
  {
    var t := ShowNat(Abs(i));
    ParseWhole(t);
    if i < 0 {
      ParseNegative(t, Decimal(-i, 0));
    } else {
      ParsePositive(t);
    }
  }

  /** Reading back an integer's decimal text gives the integer. */
  lemma ParseShowInt(i: int)
    ensures ParseInt(ShowInt(i)) == Some(i)
  {
    ParseShowIntDecimal(i);
  }

  lemma {:induction false} SplitFirstConcat(a: string, b: string, c: char)
    requires c !in a
    requires b == [] || b[0] == c
    ensures Strings.SplitFirst(a + b, c) == a
    decreases |a|
  {
    if a == [] {
      assert a + b == b;
    } else {
      assert (a + b)[1..] == a[1..] + b;
      SplitFirstConcat(a[1..], b, c);
    }
  }

  lemma NoDot(ip: string)
    requires AllDigits(ip)
    ensures '.' !in ip
  {
  }

  /** `digits.digits` reads as the integer part shifted by the fraction's width, plus the fraction. */
  lemma ParseWithFraction(ip: string, fp: string)
    requires AllDigits(ip) && AllDigits(fp) && |ip| > 0 && |fp| > 0
    ensures ParseUnsigned(ip + "." + fp).Some?
    ensures ParseUnsigned(ip + "." + fp).value == Decimal(Shift(DigitsValue(ip), |fp|) + DigitsValue(fp), |fp|)
  {
    var body := ip + "." + fp;
    NoDot(ip);
    SplitFirstConcat(ip, "." + fp, '.');
    assert body == ip + ("." + fp);
    assert body[|ip| + 1..] == fp;
  }

  /** A plain digit string reads as its value. */
  lemma ParseWhole(ip: string)
    requires AllDigits(ip) && |ip| > 0
    ensures ParseUnsigned(ip).Some? && ParseUnsigned(ip).value == Decimal(DigitsValue(ip), 0)
  {
    NoDot(ip);
    SplitFirstConcat(ip, "", '.');
    assert ip + "" == ip;
  }

  /** a * 10^k, by k shifts of one decimal place. */
  function Shift(a: nat, k: nat): nat
  {
    if k == 0 then a else 10 * Shift(a, k - 1)
  }

  lemma {:induction false} ShiftIsScaling(a: nat, k: nat)
    ensures Shift(a, k) == a * Pow10(k)
  {
    if k > 0 {
      ShiftIsScaling(a, k - 1);
      assert a * (10 * Pow10(k - 1)) == 10 * (a * Pow10(k - 1));
    }
  }

  /** Quotient and remainder put back together. */
  lemma Recompose(m: nat, scale: nat)
    ensures Shift(IntPart(m, Pow10(scale)), scale) + FracPart(m, Pow10(scale)) == m
  {
    ShiftIsScaling(IntPart(m, Pow10(scale)), scale);
  }

  /** The unsigned text of a decimal reads back as the same units and scale. */
  lemma ParseRenderMagnitude(m: nat, scale: nat)
    ensures ParseUnsigned(Unsigned(m, scale)).Some?
    ensures ParseUnsigned(Unsigned(m, scale)).value == Decimal(m, scale)
  {
    Recompose(m, scale);
    if scale == 0 {
      var ip := ShowNat(IntPart(m, Pow10(scale)));
      assert ip + Fraction(m, scale) == ip;
      ParseWhole(ip);
    } else {
      ParseRenderFraction(m, scale);
    }
  }

  lemma ParseRenderFraction(m: nat, scale: nat)
    requires scale > 0
    ensures ParseUnsigned(ShowNat(IntPart(m, Pow10(scale))) + Fraction(m, scale)).Some?
    ensures ParseUnsigned(ShowNat(IntPart(m, Pow10(scale))) + Fraction(m, scale)).value
      == Decimal(Shift(IntPart(m, Pow10(scale)), scale) + FracPart(m, Pow10(scale)), scale)
  {
    var p := Pow10(scale);
    var ip := ShowNat(IntPart(m, p));
    var fp := PadLeft(ShowNat(FracPart(m, p)), scale);
    ShowNatLength(FracPart(m, p), scale);
    assert |fp| == scale;
    assert ip + Fraction(m, scale) == ip + "." + fp;
    ParseWithFraction(ip, fp);
  }

  /** A decimal's text reads back as exactly that decimal. */
  lemma ParseRender(d: Decimal)
    ensures ParseDecimal(Render(d)) == Some(d)
  {
    var m := Abs(d.units);
    var body := Unsigned(m, d.scale);
    ParseRenderMagnitude(m, d.scale);
    if d.units < 0 {
      ParseNegative(body, Decimal(m, d.scale));
    } else {
      assert Render(d) == body;
      ParsePositive(body);
    }
  }

  /** A leading '-' negates what the rest of the text reads as. */
  lemma ParseNegative(body: string, e: Decimal)
    requires ParseUnsigned(body) == Some(e)
    ensures ParseDecimal("-" + body) == Some(Decimal(-e.units, e.scale))
  {
    assert ("-" + body)[1..] == body;
  }

  /** Text that starts with a digit reads as an unsigned decimal. */
  lemma ParsePositive(body: string)
    requires |body| > 0 && IsDigit(body[0])
    ensures ParseDecimal(body) == ParseUnsigned(body)
  {
  }

  /** Reading back a stored number's text gives its value: `parseFloat(x.toString()) == x`. */
  lemma ParseShowDecimal(d: Decimal)
    ensures ParseFloat(ShowDecimal(d)) == Num(Value(d))
  {
  }
}
