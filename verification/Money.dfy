/** Currency codes, two-decimal amounts and minor units. */
module Money {
  import opened Domain

  datatype MoneyError = UnsupportedCurrency | InvalidAmount | InvalidOperation

  datatype Result<+T> = Ok(value: T) | Err(error: MoneyError)

  const SUPPORTED_CURRENCIES: set<string> :=
    {"INR", "USD", "EUR", "GBP", "AUD", "CAD", "SGD", "JPY", "KRW"}

  const ZERO_DECIMAL_CURRENCIES: set<string> := {"JPY", "KRW"}

  /** The default decimal context keeps 28 significant digits; a quantized coefficient that needs
      more signals an invalid operation. */
  const COEFFICIENT_LIMIT: int := 10_000_000_000_000_000_000_000_000_000

  // ---- Strings (ASCII) ----

  function UpperChar(c: char): char {
    if 'a' <= c <= 'z' then (c as int - 32) as char else c
  }

  function Upper(s: string): (r: string)
    ensures |r| == |s|
    ensures forall k | 0 <= k < |s| :: r[k] == UpperChar(s[k])
  {
    if s == "" then "" else [UpperChar(s[0])] + Upper(s[1..])
  }

  predicate IsSpace(c: char) {
    c in {' ', '\t', '\n', '\r'}
  }

  function Strip(s: string): string {
    if s == "" then s
    else if IsSpace(s[0]) then Strip(s[1..])
    else if IsSpace(s[|s| - 1]) then Strip(s[..|s| - 1])
    else s
  }

  function ValidateCurrency(currency: string): Result<string> {
    var code := Upper(Strip(currency));
    if currency == "" || code !in SUPPORTED_CURRENCIES then Err(UnsupportedCurrency) else Ok(code)
  }

  // ---- Rounding ----

  /** Towards zero, as the int() constructor does. */
  function Truncate(x: Decimal): int {
    if x >= 0.0 then x.Floor else -((-x).Floor)
  }

  /** To the nearest integer, ties away from zero (ROUND_HALF_UP). */
  function RoundHalfUp(x: Decimal): int {
    if x >= 0.0 then (x + 0.5).Floor else -((-x + 0.5).Floor)
  }

  function Quantize(coefficient: int, unit: Decimal): Result<Decimal> {
    if -COEFFICIENT_LIMIT < coefficient < COEFFICIENT_LIMIT
    then Ok(coefficient as real * unit) else Err(InvalidOperation)
  }

  // ---- Conversions ----

  /** The values a caller may pass as an amount.  A float counts as the decimal that it prints as. */
  datatype RawAmount = Number(value: Decimal) | NotFinite | Unparsable | WrongType

  function ToDecimalAmount(raw: RawAmount): Result<Decimal> {
    match raw
    case Number(d) => Quantize(RoundHalfUp(d * 100.0), 0.01)
    case NotFinite => Err(InvalidAmount)
    case Unparsable => Err(InvalidOperation)
    case WrongType => Err(InvalidAmount)
  }

  function MinorUnitsToDecimal(minorUnits: int, currency: string): Result<Decimal> {
    match ValidateCurrency(currency)
    case Err(e) => Err(e)
    case Ok(code) =>
      if minorUnits < 0 then Err(InvalidAmount)
      else if code in ZERO_DECIMAL_CURRENCIES then Quantize(minorUnits * 100, 0.01)
      else Quantize(RoundHalfUp(minorUnits as real / 100.0 * 100.0), 0.01)
  }

  function DecimalToMinorUnits(amount: Decimal, currency: string): Result<int> {
    match ValidateCurrency(currency)
    case Err(e) => Err(e)
    case Ok(code) =>
      if amount < 0.0 then Err(InvalidAmount)
      else if code in ZERO_DECIMAL_CURRENCIES then Ok(Truncate(amount))
      else
        var units := RoundHalfUp(amount * 100.0);
        if units < COEFFICIENT_LIMIT then Ok(units) else Err(InvalidOperation)
  }

  /** The sub-units that the payment and refund wrappers send: int(amount * 100). */
  function TruncatedSubunits(amount: Decimal): int {
    Truncate(amount * 100.0)
  }

  predicate IsSupported(currency: string) {
    ValidateCurrency(currency).Ok?
  }

  predicate HasMinorUnits(currency: string) {
    IsSupported(currency) && ValidateCurrency(currency).value !in ZERO_DECIMAL_CURRENCIES
  }

  predicate AtMostTwoDecimals(amount: Decimal) {
    amount * 100.0 == (amount * 100.0).Floor as real
  }

  // ---- Properties ----

  lemma FloorUnique(x: real, n: int)
    requires n as real <= x < n as real + 1.0
    ensures x.Floor == n
  {
  }

  /** Rounding is pinned by its interval: for a non-negative value the result is the one integer
      within half a unit, and a tie goes up. */
  lemma RoundHalfUpIsNearest(x: Decimal, n: int)
    requires x >= 0.0
    ensures RoundHalfUp(x) == n <==> n as real - 0.5 <= x < n as real + 0.5
  {
    if n as real - 0.5 <= x < n as real + 0.5 {
      FloorUnique(x + 0.5, n);
    }
  }

  /** Rounding treats a value and its negation alike, and keeps integers. */
  lemma RoundHalfUpIsOdd(x: Decimal)
    ensures RoundHalfUp(-x) == -RoundHalfUp(x)
    ensures x == x.Floor as real ==> RoundHalfUp(x) == x.Floor
  {
    if x == x.Floor as real {
      if x >= 0.0 {
        FloorUnique(x + 0.5, x.Floor);
      } else {
        FloorUnique(-x + 0.5, -x.Floor);
      }
    }
  }

  lemma RoundHalfUpIsMonotone(x: Decimal, y: Decimal)
    requires x <= y
    ensures RoundHalfUp(x) <= RoundHalfUp(y)
  {
  }

  /** Minor units survive the way to a decimal and back, for every supported currency, whenever the
      first conversion succeeds; and it succeeds exactly below the precision limit. */
  lemma MinorUnitsRoundTrip(n: int, currency: string)
    ensures MinorUnitsToDecimal(n, currency).Ok?
       <==> IsSupported(currency) && 0 <= n < (if HasMinorUnits(currency) then COEFFICIENT_LIMIT else COEFFICIENT_LIMIT / 100)
    ensures MinorUnitsToDecimal(n, currency).Ok?
       ==> DecimalToMinorUnits(MinorUnitsToDecimal(n, currency).value, currency) == Ok(n)
  {
    if IsSupported(currency) && n >= 0 {
      assert n as real / 100.0 * 100.0 == n as real;
      RoundHalfUpIsOdd(n as real);
      if HasMinorUnits(currency) {
        assert n as real * 0.01 * 100.0 == n as real;
      } else {
        assert (n * 100) as real * 0.01 == n as real;
        FloorUnique(n as real, n);
      }
    }
  }

  /** Decimal to minor units: the nearest unit with ties up, or the whole units of a currency that
      has no minor units. */
  lemma MinorUnitsAreNearest(amount: Decimal, currency: string, n: int)
    requires IsSupported(currency) && amount >= 0.0 && n < COEFFICIENT_LIMIT
    ensures HasMinorUnits(currency) ==>
      (DecimalToMinorUnits(amount, currency) == Ok(n) <==> n as real - 0.5 <= amount * 100.0 < n as real + 0.5)
    ensures !HasMinorUnits(currency) ==>
      (DecimalToMinorUnits(amount, currency) == Ok(n) <==> n as real <= amount < n as real + 1.0)
  {
    RoundHalfUpIsNearest(amount * 100.0, n);
    if n as real <= amount < n as real + 1.0 {
      FloorUnique(amount, n);
    }
  }

  /** `to_decimal_amount` moves an amount by at most half a cent, keeps amounts of at most two
      decimals, so is idempotent, and is monotone. */
  lemma ToDecimalAmountRounds(d: Decimal)
    requires ToDecimalAmount(Number(d)).Ok?
    ensures var r := ToDecimalAmount(Number(d)).value;
      && d - 0.005 <= r <= d + 0.005
      && AtMostTwoDecimals(r)
      && (AtMostTwoDecimals(d) ==> r == d)
      && ToDecimalAmount(Number(r)) == Ok(r)
  {
    var x := d * 100.0;
    var n := RoundHalfUp(x);
    var r := n as real * 0.01;
    assert r * 100.0 == n as real;
    RoundHalfUpIsOdd(n as real);
    RoundHalfUpIsOdd(x);
    if x >= 0.0 {
      RoundHalfUpIsNearest(x, n);
    } else {
      RoundHalfUpIsNearest(-x, -n);
    }
  }

  lemma ToDecimalAmountIsMonotone(d: Decimal, e: Decimal)
    requires d <= e && ToDecimalAmount(Number(d)).Ok? && ToDecimalAmount(Number(e)).Ok?
    ensures ToDecimalAmount(Number(d)).value <= ToDecimalAmount(Number(e)).value
  {
    RoundHalfUpIsMonotone(d * 100.0, e * 100.0);
  }

  /** The two ways of computing sub-units: the truncating one is never above the rounding one and
      at most one below, and they agree exactly when the amount does not reach half a unit above a
      whole number of units, so on every amount of at most two decimals. */
  lemma TruncationAgainstRounding(amount: Decimal, currency: string)
    requires HasMinorUnits(currency) && amount >= 0.0
    requires DecimalToMinorUnits(amount, currency).Ok?
    ensures var rounded := DecimalToMinorUnits(amount, currency).value;
      && rounded - 1 <= TruncatedSubunits(amount) <= rounded
      && (TruncatedSubunits(amount) == rounded
          <==> amount * 100.0 - (amount * 100.0).Floor as real < 0.5)
      && (AtMostTwoDecimals(amount) ==> TruncatedSubunits(amount) as real == amount * 100.0)
  {
  }

  /** Which error a conversion reports: an unknown currency before a negative amount before a result of more
      than 28 digits. */
  lemma ErrorsOfConversions(raw: RawAmount, n: int, amount: Decimal, currency: string)
    ensures MinorUnitsToDecimal(n, currency) == Err(UnsupportedCurrency) <==> !IsSupported(currency)
    ensures MinorUnitsToDecimal(n, currency) == Err(InvalidAmount) <==> IsSupported(currency) && n < 0
    ensures DecimalToMinorUnits(amount, currency) == Err(UnsupportedCurrency) <==> !IsSupported(currency)
    ensures DecimalToMinorUnits(amount, currency) == Err(InvalidAmount) <==> IsSupported(currency) && amount < 0.0
    ensures DecimalToMinorUnits(amount, currency) == Err(InvalidOperation) <==>
      HasMinorUnits(currency) && amount >= 0.0
      && RoundHalfUp(amount * 100.0) >= 10_000_000_000_000_000_000_000_000_000
    ensures ToDecimalAmount(raw) == Err(InvalidAmount) <==> raw in {NotFinite, WrongType}
    ensures ToDecimalAmount(raw) == Err(InvalidOperation) <==>
      || raw == Unparsable
      || (raw.Number? && (RoundHalfUp(raw.value * 100.0) >= 10_000_000_000_000_000_000_000_000_000
                          || RoundHalfUp(raw.value * 100.0) <= -10_000_000_000_000_000_000_000_000_000))
    ensures ToDecimalAmount(raw) != Err(UnsupportedCurrency)
  {
  }

  /** Which currencies have minor units, once validated. */
  lemma MinorUnitsExactlyFor(currency: string)
    requires IsSupported(currency)
    ensures HasMinorUnits(currency) <==> ValidateCurrency(currency).value in {"INR", "USD", "EUR", "GBP", "AUD", "CAD", "SGD"}
    ensures !HasMinorUnits(currency) <==> ValidateCurrency(currency).value in {"JPY", "KRW"}
  {
  }

  lemma {:induction false} StripFront(front: string, s: string)
    requires forall k | 0 <= k < |front| :: front[k] in {' ', '\t', '\n', '\r'}
    ensures Strip(front + s) == Strip(s)
    decreases |front|
  {
    if front == "" {
      assert front + s == s;
    } else {
      assert (front + s)[1..] == front[1..] + s;
      StripFront(front[1..], s);
    }
  }

  lemma {:induction false} StripBack(s: string, back: string)
    requires forall k | 0 <= k < |back| :: back[k] in {' ', '\t', '\n', '\r'}
    requires s != "" && !IsSpace(s[0])
    ensures Strip(s + back) == Strip(s)
    decreases |back|
  {
    if back == "" {
      assert s + back == s;
    } else {
      var last := |back| - 1;
      assert (s + back)[..|s| + last] == s + back[..last];
      StripBack(s, back[..last]);
    }
  }

  /** A code is accepted in any letter case and with any white space around it. */
  lemma SpaceAndCaseDoNotMatter(front: string, code: string, back: string)
    requires forall k | 0 <= k < |front| :: front[k] in {' ', '\t', '\n', '\r'}
    requires forall k | 0 <= k < |back| :: back[k] in {' ', '\t', '\n', '\r'}
    requires code != "" && !IsSpace(code[0]) && !IsSpace(code[|code| - 1])
    ensures ValidateCurrency(front + code + back)
         == if Upper(code) in {"INR", "USD", "EUR", "GBP", "AUD", "CAD", "SGD", "JPY", "KRW"}
            then Ok(Upper(code)) else Err(UnsupportedCurrency)
  {
    StripPadded(front, code, back);
    ValidatesStripped(front + code + back, code);
  }

  lemma StripPadded(front: string, code: string, back: string)
    requires forall k | 0 <= k < |front| :: front[k] in {' ', '\t', '\n', '\r'}
    requires forall k | 0 <= k < |back| :: back[k] in {' ', '\t', '\n', '\r'}
    requires code != "" && !IsSpace(code[0]) && !IsSpace(code[|code| - 1])
    ensures Strip(front + code + back) == code
  {
    assert front + code + back == front + (code + back);
    StripFront(front, code + back);
    StripBack(code, back);
  }

  lemma ValidatesStripped(currency: string, code: string)
    requires currency != "" && Strip(currency) == code
    ensures ValidateCurrency(currency)
         == if Upper(code) in {"INR", "USD", "EUR", "GBP", "AUD", "CAD", "SGD", "JPY", "KRW"}
            then Ok(Upper(code)) else Err(UnsupportedCurrency)
  {
  }

  /** Two texts are the same in capitals exactly if they differ in the case of letters only. */
  lemma SameInCapitals(s: string, t: string)
    ensures Upper(s) == Upper(t) <==> |s| == |t| && forall k | 0 <= k < |s| :: SameLetter(s[k], t[k])
  {
    SameByCharacter(s, t, Upper(s), Upper(t));
  }

  lemma SameByCharacter(s: string, t: string, u: string, v: string)
    requires |u| == |s| && forall k | 0 <= k < |s| :: u[k] == UpperChar(s[k])
    requires |v| == |t| && forall k | 0 <= k < |t| :: v[k] == UpperChar(t[k])
    ensures u == v <==> |s| == |t| && forall k | 0 <= k < |s| :: SameLetter(s[k], t[k])
  {
    if |s| == |t| {
      forall k | 0 <= k < |s| ensures u[k] == v[k] <==> SameLetter(s[k], t[k]) {
        SameCapital(s[k], t[k]);
      }
    }
  }

  lemma SameCapital(c: char, d: char)
    ensures UpperChar(c) == UpperChar(d) <==> SameLetter(c, d)
  {
  }

  predicate SameLetter(c: char, d: char) {
    || c == d
    || ('a' <= c <= 'z' && 'A' <= d <= 'Z' && c - 'a' == d - 'A')
    || ('A' <= c <= 'Z' && 'a' <= d <= 'z' && c - 'A' == d - 'a')
  }

  /** Every listed code consists of three capital letters. */
  lemma SupportedCodes(code: string)
    requires code in SUPPORTED_CURRENCIES
    ensures |code| == 3 && 'A' <= code[0] <= 'Z' && 'A' <= code[1] <= 'Z' && 'A' <= code[2] <= 'Z'
  {
  }

  /** What validation returns is a listed code that validation accepts unchanged. */
  lemma ValidationNormalizes(currency: string)
    requires IsSupported(currency)
    ensures ValidateCurrency(currency).value in SUPPORTED_CURRENCIES
    ensures ValidateCurrency(ValidateCurrency(currency).value) == ValidateCurrency(currency)
  {
    var code := ValidateCurrency(currency).value;
    SupportedCodes(code);
    assert Strip(code) == code;
    assert forall k | 0 <= k < |code| :: Upper(code)[k] == code[k];
    assert Upper(code) == code;
  }
}
