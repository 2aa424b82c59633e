/**
 Amount text: what the store reads in it, what it accepts, how it prints totals, and
 how the Solana watcher prints atomic amounts.
 */
module Amounts {
  import opened Wrappers

  /**
   Amount text together with the rational that Go's big.Rat.SetString reads in it, or
   None when SetString rejects the text. Everything about the ledger is proved for
   whatever reading the text has; `Plain` below fixes it for plain decimal text.
   */
  datatype Amount = Amount(text: string, reading: Option<real>) {
    function Value(): real {
      if reading.Some? then reading.value else 0.0
    }
  }

  const NO_AMOUNT := Amount("", None)

  /** The pieces of text between the separators. */
  function Split(text: string, separator: char): (parts: seq<string>)
    ensures |parts| >= 1
  {
    if text == [] then [""]
    else
      var rest := Split(text[1..], separator);
      if text[0] == separator then [""] + rest else [[text[0]] + rest[0]] + rest[1..]
  }

  /** validateAmount: the text is accepted as a request or transaction amount. */
  predicate Valid(amount: Amount) {
    && amount.reading.Some?
    && amount.reading.value > 0.0
    && 'e' !in amount.text && 'E' !in amount.text
    && var parts := Split(amount.text, '.');
       && |parts| <= 2
       && |parts[0]| != 0
       && (|parts| == 2 ==> |parts[1]| <= 6)
  }

  /** compareAmountStrings: the sign of left - right, when both texts can be read. */
  function Compare(left: Amount, right: Amount): Result<int> {
    if left.reading.None? || right.reading.None? then Failure(InvalidArgument)
    else if left.reading.value < right.reading.value then Success(-1)
    else if left.reading.value > right.reading.value then Success(1)
    else Success(0)
  }

  // ---------- plain decimal text ----------

  predicate IsDigit(c: char) { '0' <= c <= '9' }

  predicate AllDigits(text: string) {
    forall i :: 0 <= i < |text| ==> IsDigit(text[i])
  }

  function DigitValue(c: char): nat
    requires IsDigit(c)
  {
    c as int - '0' as int
  }

  function DigitChar(d: nat): (c: char)
    requires d < 10
    ensures IsDigit(c) && DigitValue(c) == d
  {
    ('0' as int + d) as char
  }

  /** The number a digit string denotes; the empty string denotes zero. */
  function NatOf(digits: string): nat
    requires AllDigits(digits)
  {
    if digits == [] then 0
    else 10 * NatOf(digits[..|digits| - 1]) + DigitValue(digits[|digits| - 1])
  }

  function Pow10(n: nat): (p: nat)
    ensures p >= 1
  {
    if n == 0 then 1 else 10 * Pow10(n - 1)
  }

  /** Unsigned decimal text: digits, optionally a point and more digits. */
  predicate IsPlain(text: string) {
    var parts := Split(text, '.');
    |parts| <= 2 && parts[0] != "" && AllDigits(parts[0]) && (|parts| == 2 ==> parts[1] != "" && AllDigits(parts[1]))
  }

  /** The rational that plain decimal text denotes. */
  function Denotes(text: string): real
    requires IsPlain(text)
  {
    var parts := Split(text, '.');
    NatOf(parts[0]) as real
      + (if |parts| == 2 then NatOf(parts[1]) as real / Pow10(|parts[1]|) as real else 0.0)
  }

  /** Plain decimal text as the store reads it. */
  function Plain(text: string): Amount
    requires IsPlain(text)
  {
    Amount(text, Some(Denotes(text)))
  }

  // ---------- printing ----------

  function TrimLeft(text: string, c: char): string {
    if text != "" && text[0] == c then TrimLeft(text[1..], c) else text
  }

  function TrimRight(text: string, c: char): string {
    if text != "" && text[|text| - 1] == c then TrimRight(text[..|text| - 1], c) else text
  }

  function Repeat(c: char, n: nat): (r: string)
    ensures |r| == n && forall i :: 0 <= i < n ==> r[i] == c
  {
    seq(n, i => c)
  }

  /** Decimal digits without leading zeros. */
  function Digits(n: nat): (text: string)
    ensures text != "" && AllDigits(text)
  {
    if n < 10 then [DigitChar(n)] else Digits(n / 10) + [DigitChar(n % 10)]
  }

  const MICRO := 1000000

  /** The nearest whole number of millionths to a magnitude, halves rounding up. */
  function Millionths(magnitude: real): (n: nat)
    requires magnitude >= 0.0
  {
    (magnitude * (MICRO as real) + 0.5).Floor
  }

  /** big.Rat.FloatString(6). */
  function FloatString6(value: real): string {
    var n := Millionths(if value < 0.0 then -value else value);
    var fraction := Digits(n % MICRO);
    (if value < 0.0 then "-" else "") + Digits(n / MICRO) + "."
      + (if |fraction| < 6 then Repeat('0', 6 - |fraction|) else "") + fraction
  }

  /** formatRatAmount. */
  function Print(value: real): string {
    if value == 0.0 then "0"
    else
      var trimmed := TrimRight(TrimRight(FloatString6(value), '0'), '.');
      if trimmed == "" then "0" else trimmed
  }

  /** The watcher's format_atomic_amount. */
  function FormatAtomic(raw: string, decimals: nat): string {
    if decimals == 0 then raw
    else
      var trimmed := TrimLeft(raw, '0');
      var nonEmpty := if trimmed == "" then "0" else trimmed;
      var digits := if |nonEmpty| <= decimals then Repeat('0', decimals + 1 - |nonEmpty|) + nonEmpty else nonEmpty;
      var at := |digits| - decimals;
      var fraction := TrimRight(digits[at..], '0');
      digits[..at] + "." + (if fraction == "" then "0" else fraction)
  }
}
