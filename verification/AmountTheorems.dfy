/** What the two printers of Amounts promise about the numbers they print. */
module AmountTheorems {
  import opened Wrappers
  import opened Amounts

  // ---------- digit strings ----------

  /** The number of millionths, tenths, ... that `whole.fraction` denotes, as a rational. */
  ghost function Scaled(whole: string, fraction: string): real
    requires AllDigits(whole) && AllDigits(fraction)
  {
    NatOf(whole + fraction) as real / Pow10(|fraction|) as real
  }

  lemma {:induction false} NatOfConcat(a: string, b: string)
    requires AllDigits(a) && AllDigits(b)
    ensures AllDigits(a + b)
    ensures NatOf(a + b) == NatOf(a) * Pow10(|b|) + NatOf(b)
    decreases |b|
  {
    if b == [] {
      assert a + b == a;
    } else {
      var b' := b[..|b| - 1];
      NatOfConcat(a, b');
      assert (a + b)[..|a + b| - 1] == a + b';
      assert NatOf(a + b) == 10 * NatOf(a + b') + DigitValue(b[|b| - 1]);
      Regroup(NatOf(a), Pow10(|b'|), NatOf(b'));
    }
  }

  lemma Regroup(a: nat, p: nat, b: nat)
    ensures 10 * (a * p + b) == a * (10 * p) + 10 * b
  {
  }

  lemma {:induction false} NatOfZeros(zeros: string)
    requires forall i :: 0 <= i < |zeros| ==> zeros[i] == '0'
    ensures AllDigits(zeros) && NatOf(zeros) == 0
    decreases |zeros|
  {
    if zeros != [] { NatOfZeros(zeros[..|zeros| - 1]); }
  }

  lemma {:induction false} TrimLeftKeepsValue(text: string)
    requires AllDigits(text)
    ensures AllDigits(TrimLeft(text, '0')) && NatOf(TrimLeft(text, '0')) == NatOf(text)
    ensures TrimLeft(text, '0') == "" || TrimLeft(text, '0')[0] != '0'
    decreases |text|
  {
    if text != "" && text[0] == '0' {
      TrimLeftKeepsValue(text[1..]);
      NatOfConcat(text[..1], text[1..]);
      assert text == text[..1] + text[1..];
      NatOfZeros(text[..1]);
    }
  }

  lemma {:induction false} NatOfDigits(n: nat)
    ensures NatOf(Digits(n)) == n
    ensures Digits(n)[0] == '0' ==> n == 0 && Digits(n) == "0"
  {
    if n < 10 {
      assert Digits(n)[..0] == [];
    } else {
      NatOfDigits(n / 10);
      assert Digits(n)[..|Digits(n)| - 1] == Digits(n / 10);
    }
  }

  lemma {:induction false} DigitsLength(n: nat, width: nat)
    requires n < Pow10(width) && width > 0
    ensures |Digits(n)| <= width
  {
    if n >= 10 {
      assert width > 1 by { assert Pow10(1) == 10 * Pow10(0); }
      DigitsLength(n / 10, width - 1);
    }
  }

  /** Dropping trailing zeros of the fraction keeps the value; the fraction no longer ends in 0. */
  lemma {:induction false} TrimRightKeepsValue(whole: string, fraction: string)
    requires AllDigits(whole) && AllDigits(fraction)
    ensures AllDigits(TrimRight(fraction, '0')) && |TrimRight(fraction, '0')| <= |fraction|
    ensures Scaled(whole, TrimRight(fraction, '0')) == Scaled(whole, fraction)
    decreases |fraction|
  {
    if fraction != "" && fraction[|fraction| - 1] == '0' {
      var shorter := fraction[..|fraction| - 1];
      TrimRightKeepsValue(whole, shorter);
      assert (whole + fraction)[..|whole + fraction| - 1] == whole + shorter;
      assert NatOf(whole + fraction) == 10 * NatOf(whole + shorter);
      TenTimes(NatOf(whole + shorter), Pow10(|shorter|));
    }
  }

  lemma TenTimes(n: nat, d: nat)
    requires d > 0
    ensures (10 * n) as real / (10 * d) as real == n as real / d as real
  {
    var q := n as real / d as real;
    assert q * d as real == n as real;
    assert q * (10 * d) as real == (10 * n) as real;
  }

  // ---------- splitting at the point ----------

  lemma {:induction false} SplitNone(text: string, c: char)
    requires c !in text
    ensures Split(text, c) == [text]
    decreases |text|
  {
    if text != [] {
      SplitNone(text[1..], c);
      assert [text[0]] + text[1..] == text;
    }
  }

  lemma {:induction false} SplitOnce(a: string, b: string, c: char)
    requires c !in a && c !in b
    ensures Split(a + [c] + b, c) == [a, b]
    decreases |a|
  {
    var text := a + [c] + b;
    if a == [] {
      assert text[1..] == b;
      SplitNone(b, c);
    } else {
      assert text[1..] == a[1..] + [c] + b;
      SplitOnce(a[1..], b, c);
      assert [a[0]] + a[1..] == a;
    }
  }

  lemma DigitsHaveNoPoint(text: string)
    requires AllDigits(text)
    ensures '.' !in text && 'e' !in text && 'E' !in text
  {
  }

  /** `whole.fraction` is plain text and denotes its scaled digits. */
  lemma PointText(whole: string, fraction: string)
    requires AllDigits(whole) && AllDigits(fraction) && whole != "" && fraction != ""
    ensures Split(whole + "." + fraction, '.') == [whole, fraction]
    ensures IsPlain(whole + "." + fraction)
    ensures Denotes(whole + "." + fraction) == Scaled(whole, fraction)
  {
    DigitsHaveNoPoint(whole);
    DigitsHaveNoPoint(fraction);
    SplitOnce(whole, fraction, '.');
    NatOfConcat(whole, fraction);
    Distribute(NatOf(whole), NatOf(fraction), Pow10(|fraction|));
  }

  lemma Distribute(w: nat, f: nat, p: nat)
    requires p > 0
    ensures w as real + f as real / p as real == (w * p + f) as real / p as real
  {
    var q := f as real / p as real;
    assert q * p as real == f as real;
    assert (w as real + q) * p as real == (w * p) as real + f as real;
  }

  lemma WholeText(whole: string)
    requires AllDigits(whole) && whole != ""
    ensures IsPlain(whole) && Split(whole, '.') == [whole]
    ensures Denotes(whole) == NatOf(whole) as real
  {
    DigitsHaveNoPoint(whole);
    SplitNone(whole, '.');
  }

  // ---------- the watcher's printer ----------

  /** A number of atomic units, read as a decimal with that many places. */
  ghost function Atomic(raw: string, decimals: nat): real
    requires AllDigits(raw)
  {
    NatOf(raw) as real / Pow10(decimals) as real
  }

  lemma PadKeepsValue(zeros: string, text: string)
    requires forall i :: 0 <= i < |zeros| ==> zeros[i] == '0'
    requires AllDigits(text)
    ensures AllDigits(zeros + text) && NatOf(zeros + text) == NatOf(text)
  {
    NatOfZeros(zeros);
    NatOfConcat(zeros, text);
  }

  /** The digit string that format_atomic_amount splits: at least decimals + 1 digits, same value. */
  ghost function Padded(raw: string, decimals: nat): (digits: string)
    requires AllDigits(raw)
    ensures AllDigits(digits) && |digits| > decimals && NatOf(digits) == NatOf(raw)
    ensures digits[0] == '0' ==> |digits| == decimals + 1
  {
    TrimLeftKeepsValue(raw);
    var trimmed := TrimLeft(raw, '0');
    NatOfZeros("0");
    var nonEmpty := if trimmed == "" then "0" else trimmed;
    assert NatOf(nonEmpty) == NatOf(raw);
    if |nonEmpty| <= decimals then
      PadKeepsValue(Repeat('0', decimals + 1 - |nonEmpty|), nonEmpty);
      Repeat('0', decimals + 1 - |nonEmpty|) + nonEmpty
    else nonEmpty
  }

  /** The text that format_atomic_amount makes of the padded digits. */
  ghost function Pointed(digits: string, decimals: nat): string
    requires |digits| > decimals
  {
    var at := |digits| - decimals;
    var fraction := TrimRight(digits[at..], '0');
    digits[..at] + "." + (if fraction == "" then "0" else fraction)
  }

  /** The text is the digits split at the point, trailing zeros dropped but one digit kept. */
  lemma FormatShape(raw: string, decimals: nat)
    requires AllDigits(raw) && decimals > 0
    ensures var digits := Padded(raw, decimals);
            var at := |digits| - decimals;
            var fraction := TrimRight(digits[at..], '0');
            && AllDigits(digits[..at]) && digits[..at] != ""
            && AllDigits(fraction) && |fraction| <= decimals
            && FormatAtomic(raw, decimals) == Pointed(digits, decimals)
            && Scaled(digits[..at], fraction) == Atomic(raw, decimals)
  {
    var digits := Padded(raw, decimals);
    var at := |digits| - decimals;
    assert digits[..at] + digits[at..] == digits;
    TrimRightKeepsValue(digits[..at], digits[at..]);
  }

  lemma ZeroFraction(whole: string)
    requires AllDigits(whole)
    ensures Scaled(whole, "0") == Scaled(whole, "")
  {
    assert whole + "" == whole;
    assert (whole + "0")[..|whole|] == whole;
    TenTimes(NatOf(whole), Pow10(0));
  }

  /** Whatever the digits, the printed text denotes raw / 10^decimals. */
  lemma FormatAtomicDenotes(raw: string, decimals: nat)
    requires AllDigits(raw) && (decimals > 0 || raw != "")
    ensures IsPlain(FormatAtomic(raw, decimals))
    ensures Denotes(FormatAtomic(raw, decimals)) == Atomic(raw, decimals)
  {
    if decimals == 0 {
      WholeText(raw);
    } else {
      FormatShape(raw, decimals);
      var digits := Padded(raw, decimals);
      var at := |digits| - decimals;
      var fraction := TrimRight(digits[at..], '0');
      ZeroFraction(digits[..at]);
      PointText(digits[..at], if fraction == "" then "0" else fraction);
    }
  }

  /** USDC amounts printed by the watcher pass the store's validation exactly when positive. */
  lemma WatcherAmountAccepted(raw: string)
    requires AllDigits(raw)
    ensures IsPlain(FormatAtomic(raw, 6))
    ensures Valid(Plain(FormatAtomic(raw, 6))) <==> NatOf(raw) > 0
  {
    FormatAtomicDenotes(raw, 6);
    FormatShape(raw, 6);
    var digits := Padded(raw, 6);
    var at := |digits| - 6;
    var fraction := TrimRight(digits[at..], '0');
    var printed := if fraction == "" then "0" else fraction;
    PointText(digits[..at], printed);
    DigitsHaveNoPoint(digits[..at]);
    DigitsHaveNoPoint(printed);
    QuotientSign(NatOf(raw), Pow10(6));
  }

  lemma QuotientSign(n: nat, d: nat)
    requires d > 0
    ensures n as real / d as real > 0.0 <==> n > 0
  {
    var q := n as real / d as real;
    assert q * d as real == n as real;
  }

  lemma QuotientOrder(a: nat, b: nat, d: nat)
    requires d > 0
    ensures a as real / d as real < b as real / d as real <==> a < b
    ensures a as real / d as real == b as real / d as real <==> a == b
  {
    var p, q := a as real / d as real, b as real / d as real;
    assert p * d as real == a as real && q * d as real == b as real;
    assert p < q ==> p * d as real < q * d as real;
    assert q < p ==> q * d as real < p * d as real;
  }

  /** Comparing two printed amounts is comparing the raw integers. */
  lemma CompareAgreesWithAtomic(a: string, b: string)
    requires AllDigits(a) && AllDigits(b)
    ensures IsPlain(FormatAtomic(a, 6)) && IsPlain(FormatAtomic(b, 6))
    ensures Compare(Plain(FormatAtomic(a, 6)), Plain(FormatAtomic(b, 6)))
            == Success(if NatOf(a) < NatOf(b) then -1 else if NatOf(a) > NatOf(b) then 1 else 0)
  {
    FormatAtomicDenotes(a, 6);
    FormatAtomicDenotes(b, 6);
    QuotientOrder(NatOf(a), NatOf(b), Pow10(6));
    QuotientOrder(NatOf(b), NatOf(a), Pow10(6));
  }

  /** Digit strings of one length and value are the same string. */
  lemma {:induction false} SameLengthSameValue(a: string, b: string)
    requires AllDigits(a) && AllDigits(b) && |a| == |b| && NatOf(a) == NatOf(b)
    ensures a == b
    decreases |a|
  {
    if a != [] {
      var n := |a| - 1;
      SameLengthSameValue(a[..n], b[..n]);
      assert a[n] == b[n];
      assert a == a[..n] + [a[n]] && b == b[..n] + [b[n]];
    }
  }

  lemma {:induction false} NatOfBounds(digits: string)
    requires AllDigits(digits)
    ensures NatOf(digits) < Pow10(|digits|)
    ensures digits != "" && digits[0] != '0' ==> Pow10(|digits| - 1) <= NatOf(digits)
    decreases |digits|
  {
    if digits != [] {
      NatOfBounds(digits[..|digits| - 1]);
    }
  }

  lemma {:induction false} Pow10Grows(m: nat, n: nat)
    requires m <= n
    ensures Pow10(m) <= Pow10(n)
  {
    if m < n { Pow10Grows(m, n - 1); }
  }

  lemma PaddedCanonical(a: string, b: string, decimals: nat)
    requires AllDigits(a) && AllDigits(b) && NatOf(a) == NatOf(b)
    requires |Padded(a, decimals)| >= |Padded(b, decimals)|
    ensures Padded(a, decimals) == Padded(b, decimals)
  {
    var p, q := Padded(a, decimals), Padded(b, decimals);
    NatOfBounds(p);
    NatOfBounds(q);
    if |p| > |q| {
      Pow10Grows(|q|, |p| - 1);
      assert false;
    }
    SameLengthSameValue(p, q);
  }

  /** The printed form is canonical: equal values print equally, and only they do. */
  lemma FormatAtomicCanonical(a: string, b: string, decimals: nat)
    requires AllDigits(a) && AllDigits(b) && decimals > 0
    ensures FormatAtomic(a, decimals) == FormatAtomic(b, decimals) <==> NatOf(a) == NatOf(b)
  {
    if NatOf(a) == NatOf(b) {
      SameValueSameText(a, b, decimals);
    } else {
      FormatAtomicDenotes(a, decimals);
      FormatAtomicDenotes(b, decimals);
      QuotientOrder(NatOf(a), NatOf(b), Pow10(decimals));
    }
  }

  lemma SameValueSameText(a: string, b: string, decimals: nat)
    requires AllDigits(a) && AllDigits(b) && decimals > 0 && NatOf(a) == NatOf(b)
    ensures FormatAtomic(a, decimals) == FormatAtomic(b, decimals)
  {
    if |Padded(a, decimals)| >= |Padded(b, decimals)| {
      PaddedCanonical(a, b, decimals);
    } else {
      PaddedCanonical(b, a, decimals);
    }
    FormatShape(a, decimals);
    FormatShape(b, decimals);
  }

  // ---------- the store's printer ----------

  lemma {:induction false} TrimRightStops(a: string, b: string, c: char)
    requires a != "" && a[|a| - 1] != c
    ensures TrimRight(a + b, c) == a + TrimRight(b, c)
    decreases |b|
  {
    if b == [] {
      assert a + b == a;
    } else if b[|b| - 1] == c {
      assert (a + b)[..|a + b| - 1] == a + b[..|b| - 1];
      TrimRightStops(a, b[..|b| - 1], c);
    }
  }

  lemma {:induction false} TrimRightClean(text: string, c: char)
    ensures TrimRight(text, c) == "" || TrimRight(text, c)[|TrimRight(text, c)| - 1] != c
    decreases |text|
  {
    if text != "" && text[|text| - 1] == c { TrimRightClean(text[..|text| - 1], c); }
  }

  /** The six-digit fraction that FloatString6 prints. */
  ghost function Fraction6(n: nat): (fraction: string)
    ensures AllDigits(fraction) && |fraction| == 6 && NatOf(fraction) == n % MICRO
  {
    var digits := Digits(n % MICRO);
    NatOfDigits(n % MICRO);
    assert Pow10(6) == MICRO by { Pow10Six(); }
    DigitsLength(n % MICRO, 6);
    if |digits| < 6 then
      PadKeepsValue(Repeat('0', 6 - |digits|), digits);
      Repeat('0', 6 - |digits|) + digits
    else digits
  }

  lemma Pow10Six()
    ensures Pow10(6) == MICRO
  {
    assert Pow10(2) == 100;
    assert Pow10(4) == 10000;
  }

  /** The fixed-point text and what its digits amount to. */
  lemma MillionthsText(value: real)
    requires value > 0.0
    ensures var n := Millionths(value);
            var whole, six := Digits(n / MICRO), Fraction6(n);
            && FloatString6(value) == whole + "." + six
            && AllDigits(TrimRight(six, '0'))
            && Scaled(whole, TrimRight(six, '0')) == n as real / MICRO as real
  {
    var n := Millionths(value);
    FixedText(value);
    hide Millionths, FloatString6, Fraction6, TrimRight, NatOf, Digits;
    var whole, six := Digits(n / MICRO), Fraction6(n);
    TrimRightKeepsValue(whole, six);
    NatOfDigits(n / MICRO);
    NatOfConcat(whole, six);
    Pow10Six();
    assert NatOf(whole + six) == n;
  }

  lemma FixedText(value: real)
    requires value > 0.0
    ensures FloatString6(value) == Digits(Millionths(value) / MICRO) + "." + Fraction6(Millionths(value))
  {
    hide Millionths, Digits, NatOf;
  }

  lemma PrintShape(value: real)
    requires value > 0.0
    ensures var n := Millionths(value);
            var whole, fraction := Digits(n / MICRO), TrimRight(Fraction6(n), '0');
            && AllDigits(fraction)
            && Scaled(whole, fraction) == n as real / MICRO as real
            && Print(value) == if fraction == "" then whole else whole + "." + fraction
  {
    var n := Millionths(value);
    var whole, six := Digits(n / MICRO), Fraction6(n);
    var fraction := TrimRight(six, '0');
    MillionthsText(value);
    hide FloatString6, Fraction6, Millionths, Digits;
    TrimRightStops(whole + ".", six, '0');
    if fraction == "" {
      assert whole + "." + "" == whole + ".";
      TrimRightStops(whole, ".", '.');
    } else {
      var text := whole + "." + fraction;
      assert IsDigit(text[|text| - 1]);
    }
  }

  /** What formatRatAmount prints reads back as the value rounded to millionths. */
  lemma PrintReadsBack(value: real)
    requires value >= 0.0
    ensures IsPlain(Print(value))
    ensures Denotes(Print(value)) == Millionths(value) as real / MICRO as real
  {
    if value == 0.0 {
      PrintsZero();
    } else {
      PrintsPositive(value);
    }
  }

  lemma PrintsZero()
    ensures IsPlain(Print(0.0)) && Denotes(Print(0.0)) == Millionths(0.0) as real / MICRO as real
  {
    WholeText("0");
  }

  lemma PrintsPositive(value: real)
    requires value > 0.0
    ensures IsPlain(Print(value)) && Denotes(Print(value)) == Millionths(value) as real / MICRO as real
  {
    hide Print, Millionths, Fraction6, TrimRight, IsPlain, Denotes, Digits, AllDigits;
    PrintShape(value);
    var n := Millionths(value);
    var whole, fraction := Digits(n / MICRO), TrimRight(Fraction6(n), '0');
    if fraction == "" {
      assert whole + "" == whole;
      WholeText(whole);
    } else {
      PointText(whole, fraction);
    }
  }

  /** The value is a whole number of millionths, the precision of USDC. */
  ghost predicate SixDecimal(value: real) {
    (value * MICRO as real).Floor as real == value * MICRO as real
  }

  lemma MillionthsExact(value: real)
    requires value >= 0.0
    ensures SixDecimal(value) <==> Millionths(value) as real / MICRO as real == value
  {
    var scaled := value * MICRO as real;
    var n := Millionths(value);
    assert SixDecimal(value) ==> n == scaled.Floor;
    var back := n as real / MICRO as real;
    assert back * MICRO as real == n as real;
  }

  /** Printing a total and reading it back loses nothing exactly when the total has six decimals. */
  lemma PrintRoundTrip(value: real)
    requires value >= 0.0
    ensures IsPlain(Print(value))
    ensures Denotes(Print(value)) == value <==> SixDecimal(value)
  {
    PrintReadsBack(value);
    MillionthsExact(value);
  }

  /** Plain decimal text that validateAmount accepts has six decimals. */
  lemma PlainAmountsAreSixDecimal(text: string)
    requires IsPlain(text) && Valid(Plain(text))
    ensures SixDecimal(Denotes(text))
  {
    var parts := Split(text, '.');
    if |parts| == 2 {
      var k := |parts[1]|;
      Pow10Divides(k);
      var d := Pow10(k);
      var e := Pow10(6 - k);
      Distribute(NatOf(parts[0]), NatOf(parts[1]), d);
      WholeMillionths(Denotes(text), NatOf(parts[0]) * d + NatOf(parts[1]), d, e);
    } else {
      WholeMillionths(Denotes(text), NatOf(parts[0]), 1, MICRO);
    }
  }

  lemma {:induction false} Pow10Divides(k: nat)
    requires k <= 6
    ensures Pow10(k) * Pow10(6 - k) == MICRO
  {
    Pow10Six();
    if k > 0 {
      Pow10Divides(k - 1);
      assert Pow10(k) == 10 * Pow10(k - 1) && Pow10(7 - k) == 10 * Pow10(6 - k);
    }
  }

  lemma WholeMillionths(value: real, n: nat, d: nat, e: nat)
    requires d * e == MICRO && d > 0
    requires value == n as real / d as real
    ensures SixDecimal(value)
  {
    assert value * d as real == n as real;
    assert value * (d * e) as real == value * d as real * e as real;
    FloorOfWhole(value * MICRO as real, n * e);
  }

  lemma FloorOfWhole(x: real, n: int)
    requires x == n as real
    ensures x.Floor as real == x
  {
  }

  /** Sums of six-decimal values have six decimals. */
  lemma SixDecimalSum(a: real, b: real)
    requires SixDecimal(a) && SixDecimal(b)
    ensures SixDecimal(a + b)
  {
    SumOfWholes(a * MICRO as real, b * MICRO as real, (a + b) * MICRO as real);
  }

  lemma SumOfWholes(x: real, y: real, z: real)
    requires x.Floor as real == x && y.Floor as real == y && z == x + y
    ensures z.Floor as real == z
  {
    FloorOfWhole(z, x.Floor + y.Floor);
  }

  /**
   big.Rat also reads fractions, so "1/3" is accepted as an amount, and two printed
   thirds no longer add up to the printed two thirds.
   */
  lemma FractionAmountsLosePrecision()
    ensures var third := Amount("1/3", Some(1.0 / 3.0));
            && Valid(third)
            && IsPlain(Print(third.Value())) && IsPlain(Print(2.0 * third.Value()))
            && 2.0 * Denotes(Print(third.Value())) != Denotes(Print(2.0 * third.Value()))
  {
    SplitNone("1/3", '.');
    PrintReadsBack(1.0 / 3.0);
    PrintReadsBack(2.0 * (1.0 / 3.0));
    assert Millionths(1.0 / 3.0) == 333333;
    assert Millionths(2.0 * (1.0 / 3.0)) == 666667;
  }
}
