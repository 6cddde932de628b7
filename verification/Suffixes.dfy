/**
 What every suffix of a quantity is worth, in plain numbers.
 */
module Suffixes {
  import opened Wrappers
  import opened Quantities

  /** The quantity is read, and this is the number it stands for. */
  ghost predicate Worth(value: string, x: real) {
    Rational(value).Some? && Rational(value).value.Value() == x
  }

  lemma Read(n: nat, suffix: string, f: Fraction, x: real)
    requires ReadSuffix(suffix).Some? && |Decimal(n)| + |suffix| <= MaxLength
    requires Scale(n, 0, ReadSuffix(suffix).value) == f && f.den > 0 && f.num as real == x * f.den as real
    ensures Worth(Decimal(n) + suffix, x)
  {
    ReadBack(n, suffix);
    hide Rational, ReadSuffix, Decimal, Scale;
    Divided(f, x);
  }

  lemma Divided(f: Fraction, x: real)
    requires f.den > 0 && f.num as real == x * f.den as real
    ensures f.Value() == x
  {
    var d := f.den as real;
    var q := f.num as real / d;
    assert q * d == f.num as real;
    Cancel(q, x, d);
  }

  lemma Cancel(a: real, b: real, d: real)
    requires d > 0.0 && a * d == b * d
    ensures a == b
  {
    assert (a - b) * d == 0.0;
  }

  lemma Powers()
    ensures Pow(1024, 1) == 1024 && Pow(1024, 2) == 1048576 && Pow(1024, 3) == 1073741824
    ensures Pow(1024, 4) == 1099511627776 && Pow(1024, 5) == 1125899906842624 && Pow(1024, 6) == 1152921504606846976
    ensures Pow(10, 0) == 1 && Pow(10, 3) == 1000 && Pow(10, 6) == 1000000 && Pow(10, 9) == 1000000000
    ensures Pow(10, 12) == 1000000000000 && Pow(10, 15) == 1000000000000000 && Pow(10, 18) == 1000000000000000000
  {
    assert Pow(1024, 2) == 1024 * Pow(1024, 1) && Pow(1024, 4) == 1024 * Pow(1024, 3) && Pow(1024, 6) == 1024 * Pow(1024, 5);
    assert Pow(10, 9) == 1000 * Pow(10, 6) && Pow(10, 12) == 1000 * Pow(10, 9);
    assert Pow(10, 15) == 1000 * Pow(10, 12) && Pow(10, 18) == 1000 * Pow(10, 15);
  }

  lemma Multiple(n: nat, suffix: string, factor: nat)
    requires ReadSuffix(suffix).Some? && |Decimal(n)| + |suffix| <= MaxLength
    requires
      || (ReadSuffix(suffix).value.Binary? && Pow(1024, ReadSuffix(suffix).value.power) == factor)
      || (ReadSuffix(suffix).value.Exponent? && ReadSuffix(suffix).value.e >= 0 && Pow(10, ReadSuffix(suffix).value.e) == factor)
    ensures Worth(Decimal(n) + suffix, n as real * factor as real)
  {
    hide Decimal, ReadSuffix;
    assert Pow(10, 0) == 1;
    assert (n * factor) as real == n as real * factor as real;
    Read(n, suffix, Fraction(n * factor, 1), n as real * factor as real);
  }

  lemma Part(n: nat, suffix: string, parts: nat)
    requires ReadSuffix(suffix).Some? && |Decimal(n)| + |suffix| <= MaxLength && parts > 0
    requires ReadSuffix(suffix).value.Exponent? && ReadSuffix(suffix).value.e < 0 && Pow(10, -ReadSuffix(suffix).value.e) == parts
    ensures Worth(Decimal(n) + suffix, n as real / parts as real)
  {
    hide Decimal, ReadSuffix;
    assert Pow(10, 0) == 1;
    assert n as real / parts as real * parts as real == n as real;
    Read(n, suffix, Fraction(n, parts), n as real / parts as real);
  }

  /** A binary suffix is a power of 1024. */
  lemma BinarySuffixes(n: nat)
    requires |Decimal(n)| <= 126
    ensures Worth(Decimal(n) + "Ki", n as real * 1024.0)
    ensures Worth(Decimal(n) + "Mi", n as real * 1048576.0)
    ensures Worth(Decimal(n) + "Gi", n as real * 1073741824.0)
    ensures Worth(Decimal(n) + "Ti", n as real * 1099511627776.0)
    ensures Worth(Decimal(n) + "Pi", n as real * 1125899906842624.0)
    ensures Worth(Decimal(n) + "Ei", n as real * 1152921504606846976.0)
  {
    hide Decimal, Worth, Pow;
    Powers();
    Multiple(n, "Ki", 1024);
    Multiple(n, "Mi", 1048576);
    Multiple(n, "Gi", 1073741824);
    Multiple(n, "Ti", 1099511627776);
    Multiple(n, "Pi", 1125899906842624);
    Multiple(n, "Ei", 1152921504606846976);
  }

  /** A decimal suffix is a power of a thousand, up or down; no suffix changes nothing. */
  lemma DecimalSuffixes(n: nat)
    requires |Decimal(n)| <= 127
    ensures Worth(Decimal(n), n as real)
    ensures Worth(Decimal(n) + "k", n as real * 1000.0)
    ensures Worth(Decimal(n) + "M", n as real * 1000000.0)
    ensures Worth(Decimal(n) + "G", n as real * 1000000000.0)
    ensures Worth(Decimal(n) + "T", n as real * 1000000000000.0)
    ensures Worth(Decimal(n) + "P", n as real * 1000000000000000.0)
    ensures Worth(Decimal(n) + "E", n as real * 1000000000000000000.0)
    ensures Worth(Decimal(n) + "m", n as real / 1000.0)
    ensures Worth(Decimal(n) + "u", n as real / 1000000.0)
    ensures Worth(Decimal(n) + "n", n as real / 1000000000.0)
  {
    hide Decimal, Worth, Pow;
    Powers();
    assert Decimal(n) + "" == Decimal(n);
    Multiple(n, "", 1);
    Multiple(n, "k", 1000);
    Multiple(n, "M", 1000000);
    Multiple(n, "G", 1000000000);
    Multiple(n, "T", 1000000000000);
    Multiple(n, "P", 1000000000000000);
    Multiple(n, "E", 1000000000000000000);
    Part(n, "m", 1000);
    Part(n, "u", 1000000);
    Part(n, "n", 1000000000);
  }

  // ----- Exponents

  predicate Letter(c: char) {
    c == 'e' || c == 'E'
  }

  /** An exponent of nothing changes nothing. */
  lemma NoExponent(n: nat, c: char)
    requires Letter(c) && |Decimal(n)| <= 100
    ensures Worth(Decimal(n) + [c] + "0", n as real) && Worth(Decimal(n) + [c] + "-0", n as real)
  {
    hide Decimal, Rational, Scale, Fraction.Value;
    ExponentRead(n, c, 0);
    Whole(n);
    assert Decimal(0) == "0" by { Zero(); }
    assert Decimal(n) + [c] + "-" + "0" == Decimal(n) + [c] + "-0";
  }

  lemma Zero()
    ensures Decimal(0) == "0"
  {
  }

  /** An exponent that is one larger is ten times as much, and one less a tenth. */
  lemma Exponents(n: nat, c: char, d: nat, x: real, y: real)
    requires Letter(c) && |Decimal(n)| <= 100 && 0 < d <= 128
    requires Worth(Decimal(n) + [c] + Decimal(d - 1), x) && Worth(Decimal(n) + [c] + "-" + Decimal(d - 1), y)
    ensures Worth(Decimal(n) + [c] + Decimal(d), 10.0 * x) && Worth(Decimal(n) + [c] + "-" + Decimal(d), y / 10.0)
    ensures Worth(Decimal(n) + [c] + "+" + Decimal(d), 10.0 * x)
  {
    hide Decimal, Rational, Scale, Fraction.Value;
    ExponentRead(n, c, d);
    ExponentRead(n, c, d - 1);
    ExponentStep(n, d);
  }

  lemma Whole(n: nat)
    ensures Scale(n, 0, Exponent(0)).Value() == n as real
  {
    assert Pow(10, 0) == 1;
  }

  lemma Short(d: nat)
    requires d <= 128
    ensures |Decimal(d)| <= 3
  {
    assert d / 10 < 100 && d / 100 < 10;
    assert |Decimal(d / 100)| == 1;
    assert |Decimal(d / 10)| <= 2;
  }

  lemma SuffixOf(c: char, d: nat)
    requires Letter(c) && d <= 128
    ensures ReadSuffix([c] + Decimal(d)) == Some(Exponent(d))
    ensures ReadSuffix([c] + "+" + Decimal(d)) == Some(Exponent(d))
    ensures ReadSuffix([c] + "-" + Decimal(d)) == Some(Exponent(0 - d))
  {
    DecimalNumber(d);
    DigitsOf(Decimal(d), "");
    assert Decimal(d) + "" == Decimal(d);
    hide Decimal, ReadSuffix;
    Signed(c, "", Decimal(d));
    Signed(c, "+", Decimal(d));
    Signed(c, "-", Decimal(d));
    assert [c] + "" + Decimal(d) == [c] + Decimal(d);
  }

  lemma Signed(c: char, sign: string, digits: string)
    requires Letter(c) && sign in {"", "+", "-"} && digits != "" && (forall i | 0 <= i < |digits| :: Digit(digits[i]))
    requires Digits(digits) == |digits| && Number(digits) <= 128
    ensures ReadSuffix([c] + sign + digits) == Some(Exponent(if sign == "-" then 0 - Number(digits) else Number(digits)))
  {
    hide Number, Digits, ReadSuffix;
    var s := [c] + sign + digits;
    assert s[1 + |sign|..] == digits;
    if sign == "" {
      assert s[1] == digits[0] && Digit(s[1]);
    } else {
      assert s[1] == sign[0];
    }
    ExponentPart(s);
  }

  /** What is neither a letter nor a binary suffix is read as an exponent. */
  lemma ExponentPart(s: string)
    requires |s| > 1 && Letter(s[0]) && s[1] != 'i'
    ensures
      var digits := if s[1] == '-' || s[1] == '+' then s[2..] else s[1..];
      ReadSuffix(s) ==
        if digits == "" || Digits(digits) != |digits| || Number(digits) > 128 then None
        else Some(Exponent(if s[1] == '-' then 0 - Number(digits) else Number(digits)))
  {
    hide Number, Digits;
    NoLetters(s);
  }

  lemma NoLetters(s: string)
    requires |s| > 1 && s[1] != 'i'
    ensures s !in Letters
  {
  }

  lemma ExponentRead(n: nat, c: char, d: nat)
    requires Letter(c) && |Decimal(n)| <= 100 && d <= 128
    ensures Rational(Decimal(n) + [c] + Decimal(d)) == Some(Scale(n, 0, Exponent(d)))
    ensures Rational(Decimal(n) + [c] + "+" + Decimal(d)) == Some(Scale(n, 0, Exponent(d)))
    ensures Rational(Decimal(n) + [c] + "-" + Decimal(d)) == Some(Scale(n, 0, Exponent(0 - d)))
  {
    Short(d);
    SuffixOf(c, d);
    hide Decimal, Rational, ReadSuffix, Scale;
    var a, s := Decimal(n), Decimal(d);
    ReadBack(n, [c] + s);
    ReadBack(n, [c] + "+" + s);
    ReadBack(n, [c] + "-" + s);
    Joined(a, [c], "", s);
    Joined(a, [c], "+", s);
    Joined(a, [c], "-", s);
  }

  lemma Joined(a: string, b: string, c: string, d: string)
    ensures a + b + c + d == a + (b + c + d)
    ensures c == "" ==> a + b + d == a + (b + d)
  {
  }

  lemma ExponentStep(n: nat, d: nat)
    requires 0 < d
    ensures Scale(n, 0, Exponent(d)).Value() == 10.0 * Scale(n, 0, Exponent(d - 1)).Value()
    ensures Scale(n, 0, Exponent(0 - d)).Value() == Scale(n, 0, Exponent(1 - d)).Value() / 10.0
  {
    var p := Pow(10, d - 1);
    assert Pow(10, d) == 10 * p && Pow(10, 0) == 1;
    assert n * (10 * p) == 10 * (n * p);
    Tenth(n as real, p as real);
  }

  lemma Tenth(x: real, p: real)
    requires p > 0.0
    ensures x / (10.0 * p) == x / p / 10.0
  {
    assert x / p * p == x;
    assert x / p / 10.0 * (10.0 * p) == x;
  }

  // ----- Nothing else is a suffix

  const Letters: set<string> := {"", "n", "u", "m", "k", "M", "G", "T", "P", "E", "Ki", "Mi", "Gi", "Ti", "Pi", "Ei"}

  /** A letter, perhaps a sign, and digits for a number of at most 128. */
  ghost predicate Exponential(s: string) {
    exists c, sign, digits ::
      && s == [c] + sign + digits && Letter(c) && sign in {"", "+", "-"}
      && digits != "" && (forall i | 0 <= i < |digits| :: Digit(digits[i])) && Number(digits) <= 128
  }

  /** Behind a whole number exactly the letters and exponents can be read. */
  lemma SuffixesOnly(n: nat, suffix: string)
    requires |Decimal(n)| + |suffix| <= 128 && (suffix != "" ==> !Digit(suffix[0]) && suffix[0] != '.')
    ensures Rational(Decimal(n) + suffix).Some? <==> suffix in Letters || Exponential(suffix)
  {
    SuffixRead(suffix);
    NumberFirst(n, suffix);
  }

  lemma NumberFirst(n: nat, suffix: string)
    requires |Decimal(n)| + |suffix| <= 128 && (suffix != "" ==> !Digit(suffix[0]) && suffix[0] != '.')
    ensures Rational(Decimal(n) + suffix).Some? <==> ReadSuffix(suffix).Some?
  {
    var s := Decimal(n) + suffix;
    DigitsOf(Decimal(n), suffix);
    Cut(Decimal(n), suffix);
    assert s[0] == Decimal(n)[0];
    hide Decimal, ReadSuffix, Number, Scale;
    assert ReadNumber(s) == Some((Decimal(n), "", suffix));
  }

  lemma SuffixRead(s: string)
    ensures ReadSuffix(s).Some? <==> s in Letters || Exponential(s)
  {
    if s !in Letters {
      if ReadSuffix(s).Some? { ExponentialParts(s); }
      if Exponential(s) { ExponentialRead(s); }
    }
  }

  lemma ExponentialParts(s: string)
    requires s !in Letters && ReadSuffix(s).Some?
    ensures Exponential(s)
  {
    var signed := |s| > 1 && (s[1] == '-' || s[1] == '+');
    var sign, digits := if signed then s[1..2] else "", if signed then s[2..] else s[1..];
    assert Letter(s[0]) && digits != "" && Digits(digits) == |digits| && Number(digits) <= 128;
    hide Number, Digits, ReadSuffix;
    assert s == [s[0]] + sign + digits;
    assert signed ==> sign == [s[1]];
    assert sign in {"", "+", "-"};
  }

  lemma ExponentialRead(s: string)
    requires s !in Letters && Exponential(s)
    ensures ReadSuffix(s).Some?
  {
    var c, sign, digits :|
      && s == [c] + sign + digits && Letter(c) && sign in {"", "+", "-"}
      && digits != "" && (forall i | 0 <= i < |digits| :: Digit(digits[i])) && Number(digits) <= 128;
    DigitsOf(digits, "");
    assert digits + "" == digits;
    hide Number, Digits, ReadSuffix;
    Signed(c, sign, digits);
  }

  /** A plus in front changes nothing, and what is longer than 128 characters is not read. */
  lemma LeadingPlus(value: string)
    requires value != "" && value[0] != '+'
    ensures |value| < 128 ==> Rational("+" + value) == Rational(value)
    ensures |value| > 128 ==> Rational(value).None?
  {
    assert ("+" + value)[1..] == value;
  }

  // ----- Comparing and rounding with units

  lemma Compared(actual: string, reserved: string, x: real, y: real)
    requires Worth(actual, x) && Worth(reserved, y)
    ensures Exceeds(actual, reserved) == Some(x > y)
  {
    ExceedsIsExact(actual, reserved);
  }

  /** Storage, processor and memory compare over their units: a gibibyte is 1024 mebibytes, and one is a thousand thousandths. */
  lemma UnitsCompare(n: nat, k: nat)
    requires |Decimal(n)| <= 126 && |Decimal(k)| <= 126
    ensures Exceeds(Decimal(n) + "Gi", Decimal(k) + "Mi") == Some(1024 * n > k)
    ensures Exceeds(Decimal(n) + "Mi", Decimal(k) + "Gi") == Some(n > 1024 * k)
    ensures Exceeds(Decimal(n) + "Gi", Decimal(k) + "Gi") == Some(n > k)
    ensures Exceeds(Decimal(n) + "Mi", Decimal(k) + "Mi") == Some(n > k)
    ensures Exceeds(Decimal(n), Decimal(k) + "m") == Some(1000 * n > k)
    ensures Exceeds(Decimal(n) + "m", Decimal(k) + "m") == Some(n > k)
  {
    hide Worth, Decimal, Exceeds;
    BinarySuffixes(n);
    BinarySuffixes(k);
    DecimalSuffixes(n);
    DecimalSuffixes(k);
    var x, y := n as real, k as real;
    Compared(Decimal(n) + "Gi", Decimal(k) + "Mi", x * 1073741824.0, y * 1048576.0);
    Compared(Decimal(n) + "Mi", Decimal(k) + "Gi", x * 1048576.0, y * 1073741824.0);
    Compared(Decimal(n) + "Gi", Decimal(k) + "Gi", x * 1073741824.0, y * 1073741824.0);
    Compared(Decimal(n) + "Mi", Decimal(k) + "Mi", x * 1048576.0, y * 1048576.0);
    Compared(Decimal(n), Decimal(k) + "m", x, y / 1000.0);
    Compared(Decimal(n) + "m", Decimal(k) + "m", x / 1000.0, y / 1000.0);
  }

  ghost function Times(k: int, y: real): real {
    k as real * y
  }

  lemma Rounds(actual: string, unit: string, x: real, y: real, k: nat)
    requires Worth(actual, x) && Worth(unit, y) && y > 0.0
    requires Times(k - 1, y) < x <= Times(k, y)
    ensures Ceil(actual, unit) == if k <= 2147483647 then Some(k) else None
  {
    hide Worth, Times, Ceil;
    CoveredWorth(actual, unit, x, y, k);
    if k > 0 { CoveredWorth(actual, unit, x, y, k - 1); }
    if k <= 2147483647 { Product(k, 2147483647, y); } else { Product(2147483647, k - 1, y); }
  }

  lemma CoveredWorth(actual: string, unit: string, x: real, y: real, k: nat)
    requires Worth(actual, x) && Worth(unit, y) && y > 0.0
    ensures Ceil(actual, unit).Some? ==> (x <= Times(k, y) <==> Ceil(actual, unit).value <= k)
    ensures Ceil(actual, unit).None? <==> !(x <= Times(2147483647, y))
  {
    PositiveUnit(unit, y);
    hide Rational, Fraction.Value, Times, Ceil;
    Covered(actual, unit, k);
  }

  lemma Covered(actual: string, unit: string, k: nat)
    requires Rational(actual).Some? && Rational(unit).Some? && Rational(unit).value.num > 0
    ensures Ceil(actual, unit).Some? ==>
              (Rational(actual).value.Value() <= Times(k, Rational(unit).value.Value()) <==> Ceil(actual, unit).value <= k)
    ensures Ceil(actual, unit).None? <==> !(Rational(actual).value.Value() <= Times(2147483647, Rational(unit).value.Value()))
  {
    hide Rational, Ceil, Fraction.Value;
    CeilCovers(actual, unit, k);
  }

  lemma PositiveUnit(unit: string, y: real)
    requires Worth(unit, y) && y > 0.0
    ensures Rational(unit).value.num > 0
  {
    hide Rational;
  }

  lemma Product(a: nat, b: nat, y: real)
    requires a <= b && y > 0.0
    ensures Times(a, y) <= Times(b, y)
  {
  }

  /** Rounding up over units, with the limit of the platform. */
  lemma UnitsRound(n: nat)
    requires |Decimal(n)| <= 126
    ensures Ceil(Decimal(n) + "Gi", "1Gi") == if n <= 2147483647 then Some(n) else None
    ensures Ceil(Decimal(n) + "Gi", "1Mi") == if 1024 * n <= 2147483647 then Some(1024 * n) else None
    ensures Ceil(Decimal(n) + "Mi", "1Gi") == if (n + 1023) / 1024 <= 2147483647 then Some((n + 1023) / 1024) else None
    ensures Ceil(Decimal(n), "1m") == if 1000 * n <= 2147483647 then Some(1000 * n) else None
    ensures Ceil(Decimal(n) + "m", "1m") == if n <= 2147483647 then Some(n) else None
  {
    hide Worth, Decimal, Ceil;
    One();
    BinarySuffixes(n);
    BinarySuffixes(1);
    DecimalSuffixes(n);
    DecimalSuffixes(1);
    var x, k := n as real, (n + 1023) / 1024;
    assert 1024 * (k - 1) < n <= 1024 * k;
    assert 1024.0 * (k as real - 1.0) < x <= 1024.0 * k as real;
    var p, q := 1024 * n, 1000 * n;
    assert p as real == 1024.0 * x && q as real == 1000.0 * x;
    Rounds(Decimal(n) + "Gi", "1Gi", x * 1073741824.0, 1073741824.0, n);
    assert (p as real - 1.0) * 1048576.0 < x * 1073741824.0 <= p as real * 1048576.0;
    Rounds(Decimal(n) + "Gi", "1Mi", x * 1073741824.0, 1048576.0, p);
    assert (k as real - 1.0) * 1073741824.0 < x * 1048576.0 <= k as real * 1073741824.0;
    Rounds(Decimal(n) + "Mi", "1Gi", x * 1048576.0, 1073741824.0, k);
    assert (q as real - 1.0) * 0.001 < x <= q as real * 0.001;
    Rounds(Decimal(n), "1m", x, 0.001, q);
    Rounds(Decimal(n) + "m", "1m", x / 1000.0, 0.001, n);
  }

  lemma One()
    ensures Decimal(1) + "Gi" == "1Gi" && Decimal(1) + "Mi" == "1Mi" && Decimal(1) + "m" == "1m"
  {
    assert Decimal(1) == "1";
  }
}
