/**
 Kubernetes quantities compared and rounded without losing anything.

 A quantity is read as an exact fraction.  The comparison is that of the numbers, the rounding gives
 the least whole number of units that covers the quantity, and what the platform itself writes, a
 whole number and a unit, is read back as that number of units.
 */
module Quantities {
  import opened Wrappers

  datatype Fraction = Fraction(num: nat, den: nat) {
    ghost function Value(): real
      requires den > 0
    {
      num as real / den as real
    }
  }

  const MaxLength: nat := 128
  const MaxExponent: nat := 128
  const MaxUnits: nat := 2147483647

  function Pow(base: nat, e: nat): (p: nat)
    requires base > 0
    ensures p > 0
  {
    if e == 0 then 1 else base * Pow(base, e - 1)
  }

  // ----- Digits

  predicate Digit(c: char) {
    '0' <= c <= '9'
  }

  /** How many digits `s` starts with. */
  function Digits(s: string): (n: nat)
    ensures n <= |s| && (forall i | 0 <= i < n :: Digit(s[i])) && (n < |s| ==> !Digit(s[n]))
  {
    if s == "" || !Digit(s[0]) then 0 else 1 + Digits(s[1..])
  }

  function DigitValue(c: char): nat
    requires Digit(c)
  {
    c as int - 48
  }

  function Number(s: string): nat
    requires forall i | 0 <= i < |s| :: Digit(s[i])
  {
    if s == "" then 0 else Number(s[..|s| - 1]) * 10 + DigitValue(s[|s| - 1])
  }

  function Decimal(n: nat): (s: string)
    ensures s != "" && forall i | 0 <= i < |s| :: Digit(s[i])
  {
    var last := ['0' + (n % 10) as char];
    if n < 10 then last else Decimal(n / 10) + last
  }

  lemma {:induction false} DecimalNumber(n: nat)
    ensures Number(Decimal(n)) == n
  {
    var s := Decimal(n);
    if n < 10 {
      assert s[..|s| - 1] == "";
    } else {
      DecimalNumber(n / 10);
      assert s[..|s| - 1] == Decimal(n / 10);
    }
  }

  // ----- Reading

  datatype Suffix = Binary(power: nat) | Exponent(e: int)

  /** `[eE][+-]?\d+`, a decimal letter, or a binary suffix. */
  function ReadSuffix(s: string): Option<Suffix> {
    if s == "" then Some(Exponent(0))
    else if s == "n" then Some(Exponent(-9))
    else if s == "u" then Some(Exponent(-6))
    else if s == "m" then Some(Exponent(-3))
    else if s == "k" then Some(Exponent(3))
    else if s == "M" then Some(Exponent(6))
    else if s == "G" then Some(Exponent(9))
    else if s == "T" then Some(Exponent(12))
    else if s == "P" then Some(Exponent(15))
    else if s == "E" then Some(Exponent(18))
    else if s == "Ki" then Some(Binary(1))
    else if s == "Mi" then Some(Binary(2))
    else if s == "Gi" then Some(Binary(3))
    else if s == "Ti" then Some(Binary(4))
    else if s == "Pi" then Some(Binary(5))
    else if s == "Ei" then Some(Binary(6))
    else if s[0] != 'e' && s[0] != 'E' then None
    else
      var negative := |s| > 1 && s[1] == '-';
      var digits := if |s| > 1 && (s[1] == '-' || s[1] == '+') then s[2..] else s[1..];
      if digits == "" || Digits(digits) != |digits| then None
      else if Number(digits) > MaxExponent then None
      else Some(if negative then Exponent(0 - Number(digits)) else Exponent(Number(digits)))
  }

  /** `\d+(\.\d*)?` or `\.\d+` in front of the suffix, as the digits around the point and what follows. */
  function ReadNumber(s: string): Option<(string, string, string)> {
    var w := Digits(s);
    var whole, rest := s[..w], s[w..];
    if rest != "" && rest[0] == '.' then
      var f := Digits(rest[1..]);
      if w == 0 && f == 0 then None else Some((whole, rest[1..][..f], rest[1..][f..]))
    else if w == 0 then None
    else Some((whole, "", rest))
  }

  lemma ReadNumberDigits(s: string)
    requires ReadNumber(s).Some?
    ensures
      var (whole, fraction, _) := ReadNumber(s).value;
      forall i | 0 <= i < |whole + fraction| :: Digit((whole + fraction)[i])
  {
  }

  function Scale(n: nat, places: nat, suffix: Suffix): (f: Fraction)
    ensures f.den > 0
  {
    var den := Pow(10, places);
    match suffix
    case Binary(power) => Fraction(n * Pow(1024, power), den)
    case Exponent(e) => if e >= 0 then Fraction(n * Pow(10, e), den) else Fraction(n, den * Pow(10, -e))
  }

  function Rational(value: string): (f: Option<Fraction>)
    ensures f.Some? ==> f.value.den > 0
  {
    if |value| > MaxLength then None
    else
      var unsigned := if value != "" && value[0] == '+' then value[1..] else value;
      var parts := ReadNumber(unsigned);
      if parts.None? then None
      else
        ReadNumberDigits(unsigned);
        var (whole, fraction, rest) := parts.value;
        var suffix := ReadSuffix(rest);
        if suffix.None? then None
        else Some(Scale(Number(whole + fraction), |fraction|, suffix.value))
  }

  // ----- Comparing and rounding

  function Exceeds(actual: string, reserved: string): Option<bool> {
    var a, r := Rational(actual), Rational(reserved);
    if a.None? || r.None? then None
    else Some(a.value.num * r.value.den > r.value.num * a.value.den)
  }

  function Rounded(a: Fraction, u: Fraction): nat
    requires a.den > 0 && u.num > 0
  {
    Positive(a.den, u.num);
    (a.num * u.den + a.den * u.num - 1) / (a.den * u.num)
  }

  function Ceil(actual: string, unit: string): Option<nat> {
    var a, u := Rational(actual), Rational(unit);
    if a.None? || u.None? || u.value.num == 0 then None
    else
      var rounded := Rounded(a.value, u.value);
      if rounded > MaxUnits then None else Some(rounded)
  }

  lemma Positive(a: nat, b: nat)
    requires a > 0 && b > 0
    ensures a * b > 0
  {
  }

  /** Fractions compare as their cross products. */
  lemma CrossProducts(a: Fraction, b: Fraction)
    requires a.den > 0 && b.den > 0
    ensures a.Value() > b.Value() <==> a.num * b.den > b.num * a.den
  {
    var x, y, p, q := a.num as real, b.num as real, a.den as real, b.den as real;
    Quotients(x, p, y, q);
    assert (a.num * b.den) as real == x * q && (b.num * a.den) as real == y * p;
  }

  lemma Quotients(x: real, p: real, y: real, q: real)
    requires p > 0.0 && q > 0.0
    ensures x / p > y / q <==> x * q > y * p
  {
    var u, v := x / p, y / q;
    assert x == u * p && y == v * q;
    assert x * q == u * (p * q) && y * p == v * (p * q);
    if u > v { Scaled(v, u, p * q); } else { Scaled(u, v, p * q); }
  }

  lemma Scaled(a: real, b: real, c: real)
    requires a <= b && c > 0.0
    ensures a * c <= b * c && (a < b ==> a * c < b * c)
  {
    assert (b - a) * c >= 0.0;
  }

  /** The comparison is exact: it is that of the numbers the two quantities stand for. */
  lemma ExceedsIsExact(actual: string, reserved: string)
    ensures Exceeds(actual, reserved).Some? <==> Rational(actual).Some? && Rational(reserved).Some?
    ensures Exceeds(actual, reserved).Some? ==>
              (Exceeds(actual, reserved).value <==> Rational(actual).value.Value() > Rational(reserved).value.Value())
  {
    if Exceeds(actual, reserved).Some? { CrossProducts(Rational(actual).value, Rational(reserved).value); }
  }

  /** Rounding up is the least number of units that covers the quantity. */
  lemma CeilIsLeast(n: nat, d: nat, k: nat)
    requires d > 0
    ensures n <= k * d <==> (n + d - 1) / d <= k
  {
    var c := (n + d - 1) / d;
    var r := (n + d - 1) % d;
    assert n + d - 1 == c * d + r && r < d;
    if c <= k {
      Product(c, k, d);
    } else {
      Product(k + 1, c, d);
      assert (k + 1) * d == k * d + d;
    }
  }

  lemma Product(a: nat, b: nat, d: nat)
    requires a <= b
    ensures a * d <= b * d
  {
  }

  lemma UnitValue(a: Fraction, u: Fraction, k: nat)
    requires a.den > 0 && u.den > 0 && u.num > 0
    ensures a.Value() <= k as real * u.Value() <==> a.num * u.den <= k * (a.den * u.num)
  {
    var scaled := Fraction(k * u.num, u.den);
    CrossProducts(a, scaled);
    assert scaled.Value() == k as real * u.Value() by {
      assert (k * u.num) as real == k as real * u.num as real;
    }
    assert scaled.num * a.den == k * (a.den * u.num);
  }

  /** The rounded number covers the quantity, no smaller one does, and it fails only where there is nothing to return. */
  lemma CeilCovers(actual: string, unit: string, k: nat)
    requires Rational(actual).Some? && Rational(unit).Some? && Rational(unit).value.num > 0
    ensures Ceil(actual, unit).Some? ==>
              (Rational(actual).value.Value() <= k as real * Rational(unit).value.Value() <==> Ceil(actual, unit).value <= k)
    ensures Ceil(actual, unit).None? <==>
              !(Rational(actual).value.Value() <= MaxUnits as real * Rational(unit).value.Value())
  {
    hide Rational, Rounded;
    RoundedCovers(Rational(actual).value, Rational(unit).value, k);
    RoundedCovers(Rational(actual).value, Rational(unit).value, MaxUnits);
  }

  lemma RoundedCovers(a: Fraction, u: Fraction, k: nat)
    requires a.den > 0 && u.den > 0 && u.num > 0
    ensures a.Value() <= k as real * u.Value() <==> Rounded(a, u) <= k
  {
    Positive(a.den, u.num);
    UnitValue(a, u, k);
    CeilIsLeast(a.num * u.den, a.den * u.num, k);
  }

  // ----- What the platform writes is read back

  lemma {:induction false} DigitsOf(s: string, rest: string)
    requires forall i | 0 <= i < |s| :: Digit(s[i])
    requires rest == "" || !Digit(rest[0])
    ensures Digits(s + rest) == |s|
  {
    if s != "" {
      assert (s + rest)[1..] == s[1..] + rest;
      DigitsOf(s[1..], rest);
    } else {
      assert s + rest == rest;
    }
  }

  predicate PlatformUnit(unit: string) {
    unit == "Gi" || unit == "m" || unit == "Mi"
  }

  lemma SuffixStart(suffix: string)
    requires ReadSuffix(suffix).Some?
    ensures suffix == "" || (!Digit(suffix[0]) && suffix[0] != '.')
  {
  }

  /** A whole number in front of any suffix is read as that number. */
  lemma ReadBack(n: nat, suffix: string)
    requires ReadSuffix(suffix).Some? && |Decimal(n)| + |suffix| <= MaxLength
    ensures Rational(Decimal(n) + suffix) == Some(Scale(n, 0, ReadSuffix(suffix).value))
  {
    var s := Decimal(n) + suffix;
    ReadNumberBack(n, suffix);
    DecimalNumber(n);
    assert s[0] == Decimal(n)[0];
    assert Decimal(n) + "" == Decimal(n);
    hide Decimal, ReadNumber, Number, Scale, ReadSuffix;
  }

  lemma ReadNumberBack(n: nat, suffix: string)
    requires ReadSuffix(suffix).Some?
    ensures ReadNumber(Decimal(n) + suffix) == Some((Decimal(n), "", suffix))
  {
    var s := Decimal(n) + suffix;
    SuffixStart(suffix);
    hide ReadSuffix;
    DigitsOf(Decimal(n), suffix);
    assert s[..|Decimal(n)|] == Decimal(n) && s[|Decimal(n)|..] == suffix;
  }

  lemma PointNumber(whole: string, fraction: string, suffix: string)
    requires forall i | 0 <= i < |whole| :: Digit(whole[i])
    requires forall i | 0 <= i < |fraction| :: Digit(fraction[i])
    requires whole + fraction != "" && (suffix == "" || (!Digit(suffix[0]) && suffix[0] != '.'))
    ensures ReadNumber(whole + "." + fraction + suffix) == Some((whole, fraction, suffix))
  {
    var tail := fraction + suffix;
    var rest := "." + tail;
    var s := whole + rest;
    DigitsOf(whole, rest);
    DigitsOf(fraction, suffix);
    hide Digits, Digit;
    assert whole + "." + fraction + suffix == s;
    Cut(whole, rest);
    Cut(".", tail);
    Cut(fraction, suffix);
    assert ReadNumber(s) == Some((whole, fraction, suffix));
  }

  lemma Cut(a: string, b: string)
    ensures (a + b)[..|a|] == a && (a + b)[|a|..] == b
  {
  }

  /** Digits around a point are read as the number without the point over the power of ten of the places behind it. */
  lemma PointRead(whole: string, fraction: string, suffix: string)
    requires forall i | 0 <= i < |whole| :: Digit(whole[i])
    requires forall i | 0 <= i < |fraction| :: Digit(fraction[i])
    requires whole + fraction != "" && ReadSuffix(suffix).Some? && |whole| + 1 + |fraction| + |suffix| <= MaxLength
    ensures forall i | 0 <= i < |whole + fraction| :: Digit((whole + fraction)[i])
    ensures Rational(whole + "." + fraction + suffix) == Some(Scale(Number(whole + fraction), |fraction|, ReadSuffix(suffix).value))
  {
    SuffixStart(suffix);
    PointNumber(whole, fraction, suffix);
    PointStart(whole, fraction, suffix);
    hide ReadSuffix, ReadNumber;
    RationalOf(whole + "." + fraction + suffix, whole, fraction, suffix);
  }

  lemma PointStart(whole: string, fraction: string, suffix: string)
    requires forall i | 0 <= i < |whole| :: Digit(whole[i])
    ensures
      var s := whole + "." + fraction + suffix;
      |s| == |whole| + 1 + |fraction| + |suffix| && s[0] != '+'
  {
  }

  lemma RationalOf(value: string, whole: string, fraction: string, suffix: string)
    requires |value| <= MaxLength && value != "" && value[0] != '+'
    requires ReadNumber(value) == Some((whole, fraction, suffix)) && ReadSuffix(suffix).Some?
    ensures forall i | 0 <= i < |whole + fraction| :: Digit((whole + fraction)[i])
    ensures Rational(value) == Some(Scale(Number(whole + fraction), |fraction|, ReadSuffix(suffix).value))
  {
    ReadNumberDigits(value);
    hide ReadSuffix, ReadNumber, Number, Scale;
  }

  /** A zero written behind the last place changes nothing. */
  lemma TrailingZero(whole: string, fraction: string, suffix: string)
    requires forall i | 0 <= i < |whole| :: Digit(whole[i])
    requires forall i | 0 <= i < |fraction| :: Digit(fraction[i])
    requires whole + fraction != "" && ReadSuffix(suffix).Some? && |whole| + 2 + |fraction| + |suffix| <= MaxLength
    ensures Rational(whole + "." + fraction + suffix).Some? && Rational(whole + "." + fraction + "0" + suffix).Some?
    ensures Rational(whole + "." + fraction + "0" + suffix).value.Value() == Rational(whole + "." + fraction + suffix).value.Value()
  {
    hide Rational, ReadSuffix, Scale;
    PointRead(whole, fraction, suffix);
    PointRead(whole, fraction + "0", suffix);
    assert whole + "." + fraction + "0" + suffix == whole + "." + (fraction + "0") + suffix;
    assert whole + (fraction + "0") == whole + fraction + "0";
    AppendedZero(whole + fraction);
    ZeroPlace(Number(whole + fraction), |fraction|, ReadSuffix(suffix).value);
  }

  lemma AppendedZero(s: string)
    requires forall i | 0 <= i < |s| :: Digit(s[i])
    ensures (forall i | 0 <= i < |s + "0"| :: Digit((s + "0")[i])) && Number(s + "0") == Number(s) * 10
  {
    assert (s + "0")[..|s|] == s;
  }

  lemma ZeroPlace(n: nat, places: nat, suffix: Suffix)
    ensures Scale(n * 10, places + 1, suffix).Value() == Scale(n, places, suffix).Value()
  {
    var a, b := Scale(n * 10, places + 1, suffix), Scale(n, places, suffix);
    assert Pow(10, places + 1) == 10 * Pow(10, places);
    assert a.num == 10 * b.num && a.den == 10 * b.den by { TenTimes(n, places, suffix); }
    CrossProducts(a, b);
    CrossProducts(b, a);
    assert a.num * b.den == b.num * a.den;
  }

  lemma TenTimes(n: nat, places: nat, suffix: Suffix)
    ensures Scale(n * 10, places + 1, suffix) == Fraction(10 * Scale(n, places, suffix).num, 10 * Scale(n, places, suffix).den)
  {
    match suffix {
      case Binary(power) => assert n * 10 * Pow(1024, power) == 10 * (n * Pow(1024, power));
      case Exponent(e) =>
        if e >= 0 { assert n * 10 * Pow(10, e) == 10 * (n * Pow(10, e)); }
        else { assert 10 * Pow(10, places) * Pow(10, -e) == 10 * (Pow(10, places) * Pow(10, -e)); }
    }
  }

  /** A number of units is worth that many times one unit. */
  lemma UnitsAreMultiples(n: nat, unit: string)
    requires PlatformUnit(unit) && |Decimal(n)| + |unit| <= MaxLength
    ensures Rational(Decimal(n) + unit).Some? && Rational("1" + unit).Some? && Rational("1" + unit).value.num > 0
    ensures Rational(Decimal(n) + unit).value.Value() == n as real * Rational("1" + unit).value.Value()
  {
    hide Rational, Scale, ReadSuffix, PlatformUnit, Decimal, Fraction.Value;
    Units(n, unit);
    ReadBack(n, unit);
    OneUnit(unit);
    Multiple(Rational(Decimal(n) + unit).value, Rational("1" + unit).value, n);
  }

  lemma OneUnit(unit: string)
    requires PlatformUnit(unit)
    ensures ReadSuffix(unit).Some? && Rational("1" + unit) == Some(Scale(1, 0, ReadSuffix(unit).value))
  {
    hide Rational, Scale, ReadSuffix;
    Units(1, unit);
    assert Decimal(1) == "1";
    ReadBack(1, unit);
  }

  lemma Multiple(many: Fraction, one: Fraction, n: nat)
    requires one.den > 0 && many.num == n * one.num && many.den == one.den
    ensures many.Value() == n as real * one.Value()
  {
    assert many.num as real == n as real * one.num as real;
  }

  lemma Units(n: nat, unit: string)
    requires PlatformUnit(unit)
    ensures ReadSuffix(unit).Some?
    ensures Scale(n, 0, ReadSuffix(unit).value).num == n * Scale(1, 0, ReadSuffix(unit).value).num
    ensures Scale(n, 0, ReadSuffix(unit).value).den == Scale(1, 0, ReadSuffix(unit).value).den
    ensures Scale(1, 0, ReadSuffix(unit).value).num > 0
  {
  }

  lemma CeilSome(actual: string, unit: string)
    requires Ceil(actual, unit).Some?
    ensures Rational(actual).Some? && Rational(unit).Some?
  {
    hide Rational;
  }

  /** Whatever is at least the rounded number of units is not exceeded. */
  lemma CoveredIsNotExceeded(actual: string, unit: string, n: nat)
    requires PlatformUnit(unit) && |Decimal(n)| + |unit| <= MaxLength
    requires Ceil(actual, "1" + unit).Some? && Ceil(actual, "1" + unit).value <= n
    ensures Exceeds(actual, Decimal(n) + unit) == Some(false)
  {
    hide Rational, Ceil, Exceeds, PlatformUnit, Decimal, Fraction.Value;
    CeilSome(actual, "1" + unit);
    UnitsAreMultiples(n, unit);
    ghost var bound: real := n as real * Rational("1" + unit).value.Value();
    assert Rational(actual).value.Value() <= bound by { CeilCovers(actual, "1" + unit, n); }
    ExceedsIsExact(actual, Decimal(n) + unit);
  }
}
