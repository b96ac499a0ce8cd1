/**
 Monetary amounts: parsing rounds half to even at the cent within a fixed range, formatting gives exactly two decimals.
 A decimal keeps the sign of a zero, as the source's decimals do.
 */
module Money {
  import opened Prelude

  const MAX_CENTS: nat := 999_999_999_999_999_999

  datatype Decimal = NotFinite | Finite(negative: bool, magnitude: real) {
    predicate Valid() { Finite? ==> magnitude >= 0.0 }
  }

  /** What a value offered as an amount can be, floats already turned into their shortest decimal text. */
  datatype Input = Boolean | NotANumber | Number(decimal: Decimal)

  /** A signed number of cents, zero in either sign. */
  datatype Money = Money(negative: bool, cents: nat) {
    function Value(): int { if negative then -(cents as int) else cents }

    predicate InRange() { cents <= MAX_CENTS }

    function AsDecimal(): Decimal { Finite(negative, cents as real / 100.0) }
  }

  datatype MoneyError = IsBoolean | IsNotNumeric | IsNotFinite | ExceedsRange

  function RoundHalfEven(x: real): (n: nat)
    requires x >= 0.0
  {
    var whole := x.Floor;
    var rest := x - whole as real;
    if rest < 0.5 || (rest == 0.5 && whole % 2 == 0) then whole else whole + 1
  }

  function ParseMoney(input: Input): Result<Money, MoneyError>
    requires input.Number? ==> input.decimal.Valid()
  {
    match input
    case Boolean => Err(IsBoolean)
    case NotANumber => Err(IsNotNumeric)
    case Number(NotFinite) => Err(IsNotFinite)
    case Number(Finite(negative, magnitude)) =>
      if magnitude > MAX_CENTS as real / 100.0 then Err(ExceedsRange)
      else Ok(Money(negative, RoundHalfEven(magnitude * 100.0)))
  }

  /** n is the integer nearest to x, the even one when two are equally near. */
  predicate NearestEven(n: int, x: real) {
    var gap := if n as real >= x then n as real - x else x - n as real;
    gap < 0.5 || (gap == 0.5 && n % 2 == 0)
  }

  /** Rounding returns the nearest cent, ties to even, and nothing else does. */
  lemma RoundsToNearestEven(x: real, n: nat)
    requires x >= 0.0
    ensures NearestEven(n, x) <==> n == RoundHalfEven(x)
  {
    var whole := x.Floor;
    if n < whole {
      assert n as real <= whole as real - 1.0;
    } else if n > whole + 1 {
      assert n as real >= whole as real + 2.0;
    }
  }

  /** Parsing accepts exactly the finite numbers in range, keeps the sign, and lands within half a cent and in range. */
  lemma ParseIsExact(input: Input)
    requires input.Number? ==> input.decimal.Valid()
    ensures ParseMoney(input).Ok? <==>
      input.Number? && input.decimal.Finite? && input.decimal.magnitude <= 9_999_999_999_999_999.99
    ensures ParseMoney(input).Ok? ==>
      var m := ParseMoney(input).value;
      m.InRange() && m.negative == input.decimal.negative && NearestEven(m.cents, input.decimal.magnitude * 100.0)
  {
    if ParseMoney(input).Ok? {
      var x := input.decimal.magnitude * 100.0;
      RoundsToNearestEven(x, RoundHalfEven(x));
      assert x <= MAX_CENTS as real;
    }
  }

  /** Parsing a parsed amount again changes nothing. */
  lemma ParseIsIdempotent(m: Money)
    requires m.InRange()
    ensures ParseMoney(Number(m.AsDecimal())) == Ok(m)
  {
    var x := m.cents as real / 100.0 * 100.0;
    assert x == m.cents as real;
    RoundsToNearestEven(x, m.cents);
  }

  lemma ParseIsMonotone(a: Decimal, b: Decimal)
    requires a.Finite? && b.Finite? && 0.0 <= a.magnitude <= b.magnitude && ParseMoney(Number(b)).Ok?
    ensures ParseMoney(Number(a)).Ok? && ParseMoney(Number(a)).value.cents <= ParseMoney(Number(b)).value.cents
  {
    var x, y := a.magnitude * 100.0, b.magnitude * 100.0;
    assert x.Floor <= y.Floor;
  }

  // ---------------------------------------------------------------------------------------------------------------
  // Text
  // ---------------------------------------------------------------------------------------------------------------

  predicate IsDigit(c: char) { '0' <= c <= '9' }

  predicate AllDigits(s: string) {
    forall i :: 0 <= i < |s| ==> IsDigit(s[i])
  }

  function Digit(d: nat): char
    requires d < 10
  {
    "0123456789"[d]
  }

  function Digits(n: nat): string {
    if n < 10 then [Digit(n)] else Digits(n / 10) + [Digit(n % 10)]
  }

  function DigitValue(c: char): nat
    requires IsDigit(c)
  {
    (c - '0') as nat
  }

  function ValueOf(s: string): nat
    requires AllDigits(s)
  {
    if s == "" then 0 else ValueOf(s[..|s| - 1]) * 10 + DigitValue(s[|s| - 1])
  }

  function Pow10(n: nat): nat {
    if n == 0 then 1 else 10 * Pow10(n - 1)
  }

  function FormatMoney(m: Money): string {
    Signed(m.negative, Unsigned(m.cents))
  }

  function Signed(negative: bool, body: string): string {
    if negative then "-" + body else body
  }

  function Unsigned(cents: nat): string {
    Digits(cents / 100) + "." + Cents(cents)
  }

  function Point(s: string): nat
    ensures Point(s) <= |s|
  {
    if s == "" || s[0] == '.' then 0 else 1 + Point(s[1..])
  }

  /** The plain notation: a sign, digits, and optionally a point and more digits. */
  function ReadPlain(s: string): (d: Option<Decimal>)
    ensures d.Some? ==> d.value.Valid()
  {
    ReadUnsigned(s != "" && s[0] == '-', if s != "" && (s[0] == '-' || s[0] == '+') then s[1..] else s)
  }

  function ReadUnsigned(negative: bool, s: string): (d: Option<Decimal>)
    ensures d.Some? ==> d.value.Valid()
  {
    var p := Point(s);
    var whole, fraction := s[..p], if p < |s| then s[p + 1..] else "";
    if !AllDigits(whole) || !AllDigits(fraction) || whole + fraction == "" then None
    else
      PowIsPositive(|fraction|);
      Some(Finite(negative, ValueOf(whole + fraction) as real / Pow10(|fraction|) as real))
  }

  lemma PowIsPositive(n: nat)
    ensures Pow10(n) > 0
  {
  }

  lemma DigitRoundTrip(d: nat)
    requires d < 10
    ensures IsDigit(Digit(d)) && DigitValue(Digit(d)) == d
  {
    var table := "0123456789";
    assert table[0] == '0' && table[1] == '1' && table[2] == '2' && table[3] == '3' && table[4] == '4';
    assert table[5] == '5' && table[6] == '6' && table[7] == '7' && table[8] == '8' && table[9] == '9';
  }

  lemma {:induction false} DigitsRoundTrip(n: nat)
    ensures AllDigits(Digits(n)) && Digits(n) != "" && ValueOf(Digits(n)) == n
  {
    DigitRoundTrip(n % 10);
    if n >= 10 {
      DigitsRoundTrip(n / 10);
      var s := Digits(n);
      assert s[..|s| - 1] == Digits(n / 10);
    }
  }

  /** Digits without a redundant leading zero. */
  predicate Numeral(s: string) {
    s != "" && AllDigits(s) && (|s| > 1 ==> s[0] != '0')
  }

  lemma {:induction false} LeadingDigitCounts(s: string)
    requires AllDigits(s) && s != "" && s[0] != '0'
    ensures ValueOf(s) > 0
  {
    if |s| > 1 { LeadingDigitCounts(s[..|s| - 1]); }
  }

  lemma DigitOfValue(c: char)
    requires IsDigit(c)
    ensures DigitValue(c) < 10 && Digit(DigitValue(c)) == c
  {
    DigitRoundTrip(DigitValue(c));
  }

  lemma {:induction false} DigitsStart(n: nat)
    ensures Digits(n) != "" && (n > 0 ==> Digits(n)[0] != '0')
  {
    if n >= 10 { DigitsStart(n / 10); } else { DigitRoundTrip(n); }
  }

  /** Every number has one numeral, and it is what the digits of the number spell. */
  lemma {:induction false} NumeralIsUnique(n: nat, s: string)
    ensures s == Digits(n) <==> Numeral(s) && ValueOf(s) == n
  {
    DigitsRoundTrip(n);
    DigitsStart(n);
    if Numeral(s) && ValueOf(s) == n {
      var front, last := s[..|s| - 1], s[|s| - 1];
      DigitOfValue(last);
      assert n == ValueOf(front) * 10 + DigitValue(last);
      if front == "" {
        assert s == [last];
      } else {
        LeadingDigitCounts(front);
        NumeralIsUnique(n / 10, front);
        assert s == front + [last];
      }
    }
  }

  lemma {:induction false} PointAfterDigits(whole: string, rest: string)
    requires AllDigits(whole)
    ensures Point(whole + "." + rest) == |whole|
  {
    if whole != "" {
      assert (whole + "." + rest)[1..] == whole[1..] + "." + rest;
      PointAfterDigits(whole[1..], rest);
    }
  }

  function Cents(cents: nat): string {
    [Digit(cents / 10 % 10), Digit(cents % 10)]
  }

  lemma AppendDigit(s: string, d: nat)
    requires d < 10 && AllDigits(s)
    ensures AllDigits(s + [Digit(d)]) && ValueOf(s + [Digit(d)]) == ValueOf(s) * 10 + d
  {
    DigitRoundTrip(d);
    assert (s + [Digit(d)])[..|s|] == s;
  }

  lemma AppendTwoDigits(s: string, tens: nat, ones: nat)
    requires tens < 10 && ones < 10 && AllDigits(s)
    ensures var t := s + [Digit(tens), Digit(ones)];
      AllDigits(t) && ValueOf(t) == (ValueOf(s) * 10 + tens) * 10 + ones
  {
    AppendDigit(s, tens);
    AppendDigit(s + [Digit(tens)], ones);
    assert s + [Digit(tens)] + [Digit(ones)] == s + [Digit(tens), Digit(ones)];
  }

  lemma LastTwoDigits(n: nat)
    ensures (n / 100 * 10 + n / 10 % 10) * 10 + n % 10 == n
  {
  }

  lemma CentsReadBack(cents: nat)
    ensures AllDigits(Digits(cents / 100)) && AllDigits(Cents(cents)) && AllDigits(Digits(cents / 100) + Cents(cents))
    ensures ValueOf(Digits(cents / 100) + Cents(cents)) == cents
  {
    DigitsRoundTrip(cents / 100);
    LastTwoDigits(cents);
    AppendTwoDigits(Digits(cents / 100), cents / 10 % 10, cents % 10);
    AppendTwoDigits([], cents / 10 % 10, cents % 10);
    assert [] + Cents(cents) == Cents(cents);
  }

  lemma LayoutReads(negative: bool, whole: string, fraction: string)
    requires AllDigits(whole) && AllDigits(fraction) && |fraction| == 2 && AllDigits(whole + fraction)
    ensures ReadUnsigned(negative, whole + "." + fraction)
      == Some(Finite(negative, ValueOf(whole + fraction) as real / 100.0))
  {
    hide ValueOf;
    var s := whole + "." + fraction;
    PointAfterDigits(whole, fraction);
    assert s[..|whole|] == whole && s[|whole| + 1..] == fraction;
    assert Pow10(|fraction|) == 100 by { assert Pow10(1) == 10 && Pow10(0) == 1; }
  }

  lemma UnsignedReadsBack(negative: bool, cents: nat)
    ensures ReadUnsigned(negative, Unsigned(cents)) == Some(Finite(negative, cents as real / 100.0))
  {
    CentsReadBack(cents);
    LayoutReads(negative, Digits(cents / 100), Cents(cents));
  }

  lemma SignReadsBack(negative: bool, body: string)
    requires body != "" && IsDigit(body[0])
    ensures ReadPlain(Signed(negative, body)) == ReadUnsigned(negative, body)
  {
    assert negative ==> ("-" + body)[1..] == body;
  }

  lemma UnsignedStartsWithDigit(cents: nat)
    ensures Unsigned(cents) != "" && IsDigit(Unsigned(cents)[0])
  {
    DigitsRoundTrip(cents / 100);
    assert Unsigned(cents)[0] == Digits(cents / 100)[0];
  }

  lemma SignedReadsBack(negative: bool, cents: nat)
    ensures ReadPlain(Signed(negative, Unsigned(cents))) == Some(Finite(negative, cents as real / 100.0))
  {
    var body := Unsigned(cents);
    UnsignedStartsWithDigit(cents);
    SignReadsBack(negative, body);
    assert ReadPlain(Signed(negative, body)) == ReadUnsigned(negative, body);
    UnsignedReadsBack(negative, cents);
  }

  /** Reading back a formatted amount gives exactly its value, sign of zero included. */
  lemma FormatReadsBack(m: Money)
    ensures ReadPlain(FormatMoney(m)) == Some(m.AsDecimal())
  {
    assert FormatMoney(m) == Signed(m.negative, Unsigned(m.cents));
    assert m.AsDecimal() == Finite(m.negative, m.cents as real / 100.0);
    SignedReadsBack(m.negative, m.cents);
  }

  /** The layout of an amount: a minus sign if negative, a numeral, a point, and exactly two digits. */
  predicate Layout(text: string, negative: bool, whole: string, fraction: string) {
    && text == (if negative then "-" else "") + (whole + "." + fraction)
    && Numeral(whole) && AllDigits(fraction) && |fraction| == 2
  }

  lemma ValueSplits(whole: string, fraction: string)
    requires AllDigits(whole) && AllDigits(fraction) && |fraction| == 2
    ensures AllDigits(whole + fraction)
    ensures ValueOf(whole + fraction) == ValueOf(whole) * 100 + DigitValue(fraction[0]) * 10 + DigitValue(fraction[1])
  {
    DigitOfValue(fraction[0]);
    DigitOfValue(fraction[1]);
    AppendTwoDigits(whole, DigitValue(fraction[0]), DigitValue(fraction[1]));
    assert whole + fraction == whole + [fraction[0], fraction[1]];
  }

  lemma LayoutReadsBack(text: string, negative: bool, whole: string, fraction: string)
    requires Layout(text, negative, whole, fraction) && AllDigits(whole + fraction)
    ensures ReadPlain(text) == Some(Finite(negative, ValueOf(whole + fraction) as real / 100.0))
  {
    hide ValueOf, ReadUnsigned, ReadPlain;
    var body := whole + "." + fraction;
    assert body != "" && body[0] == whole[0];
    assert "" + body == body;
    assert text == Signed(negative, body);
    SignReadsBack(negative, body);
    LayoutReads(negative, whole, fraction);
  }

  lemma SplitCents(whole: nat, tens: nat, ones: nat)
    requires tens < 10 && ones < 10
    ensures var n := whole * 100 + tens * 10 + ones; n / 100 == whole && n / 10 % 10 == tens && n % 10 == ones
  {
    var n := whole * 100 + tens * 10 + ones;
    assert n / 10 == whole * 10 + tens by { assert n == (whole * 10 + tens) * 10 + ones; }
    assert (whole * 10 + tens) % 10 == tens;
  }

  lemma LayoutOfCents(cents: nat, whole: string, fraction: string)
    requires Numeral(whole) && AllDigits(fraction) && |fraction| == 2
    requires AllDigits(whole + fraction) && cents == ValueOf(whole + fraction)
    ensures Unsigned(cents) == whole + "." + fraction
  {
    hide ValueOf, Digits, DigitValue;
    var tens, ones := fraction[0], fraction[1];
    ValueSplits(whole, fraction);
    DigitOfValue(tens);
    DigitOfValue(ones);
    SplitCents(ValueOf(whole), DigitValue(tens), DigitValue(ones));
    NumeralIsUnique(cents / 100, whole);
    assert fraction == [tens, ones] == Cents(cents);
  }

  /** Of all texts in the layout, the amount's own is the one whose digits spell its cents under its sign. */
  lemma TextIsExact(m: Money, text: string, negative: bool, whole: string, fraction: string)
    requires Layout(text, negative, whole, fraction)
    ensures AllDigits(whole + fraction)
    ensures text == FormatMoney(m) <==> m.negative == negative && m.cents == ValueOf(whole + fraction)
  {
    hide ValueOf, ReadPlain, Unsigned, Digits;
    ValueSplits(whole, fraction);
    if text == FormatMoney(m) {
      FormatReadsBack(m);
      LayoutReadsBack(text, negative, whole, fraction);
    } else if m.negative == negative && m.cents == ValueOf(whole + fraction) {
      LayoutOfCents(m.cents, whole, fraction);
    }
  }

  /** Every amount's text is in the layout: no redundant zero in front, never more or fewer than two decimals. */
  lemma TextHasLayout(m: Money)
    ensures Layout(FormatMoney(m), m.negative, Digits(m.cents / 100), Cents(m.cents))
  {
    NumeralIsUnique(m.cents / 100, Digits(m.cents / 100));
    CentsReadBack(m.cents);
  }

  /** Formatting and parsing are inverse on every amount in range. */
  lemma MoneyRoundTrip(m: Money)
    requires m.InRange()
    ensures ReadPlain(FormatMoney(m)).Some? && ParseMoney(Number(ReadPlain(FormatMoney(m)).value)) == Ok(m)
  {
    FormatReadsBack(m);
    ParseIsIdempotent(m);
  }

  /** Equal amounts have equal text except the two zeros: "-0.00" and "0.00" are one value and two texts. */
  lemma TextIsCanonicalButForZero(a: Money, b: Money)
    requires a.InRange() && b.InRange()
    ensures FormatMoney(a) == FormatMoney(b) <==> a == b
    ensures a.Value() == b.Value() && FormatMoney(a) != FormatMoney(b) <==>
      a.cents == 0 && b.cents == 0 && a.negative != b.negative
  {
    MoneyRoundTrip(a);
    MoneyRoundTrip(b);
  }
}
