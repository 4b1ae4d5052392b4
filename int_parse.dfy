/**
 * Rust's `u64::from_str` (decimal `parse::<u64>()`) and `{}` formatting of
 * unsigned integers, the two number conversions the health checker relies on.
 *
 * The parser follows the standard library's algorithm: an empty string is an
 * `Empty` error; a lone sign is an `InvalidDigit` error; one leading `+` is
 * skipped (a `-` is not, and so is an invalid digit for an unsigned type); the
 * digits are then consumed from left to right, and the first character that is
 * not a digit, or the first step whose value exceeds `u64::MAX`, decides the
 * error.
 */
module IntParse {
  import opened Wrappers

  const MAX_U64: nat := 0xFFFF_FFFF_FFFF_FFFF

  type U64 = x: int | 0 <= x <= MAX_U64

  /** The failure kinds of `ParseIntError` that an unsigned decimal parse can report. */
  datatype IntErrorKind = Empty | InvalidDigit | PosOverflow

  predicate IsDigit(c: char) {
    '0' <= c <= '9'
  }

  predicate AllDigits(s: string) {
    forall i :: 0 <= i < |s| ==> IsDigit(s[i])
  }

  function DigitValue(c: char): (d: nat)
    requires IsDigit(c)
    ensures d < 10
  {
    c as int - '0' as int
  }

  function DigitChar(d: nat): (c: char)
    requires d < 10
    ensures IsDigit(c) && DigitValue(c) == d
  {
    (d + '0' as int) as char
  }

  /** The number a string of decimal digits denotes (reference definition, most significant digit first). */
  function Value(s: string): nat
    requires AllDigits(s)
    decreases |s|
  {
    if s == [] then 0 else 10 * Value(s[..|s| - 1]) + DigitValue(s[|s| - 1])
  }

  /** The text after the optional leading `+` that an unsigned parse skips. */
  function Unsigned(s: string): string {
    if |s| > 0 && s[0] == '+' then s[1..] else s
  }

  /** Reference definition of the strings `u64::from_str` accepts. */
  predicate IsU64Text(s: string) {
    var digits := Unsigned(s);
    |digits| > 0 && AllDigits(digits) && Value(digits) <= MAX_U64
  }

  /** The standard library's digit loop: `acc = acc * 10 + digit`, checked at every step. */
  function Accumulate(digits: string, acc: U64): (r: Result<U64, IntErrorKind>)
    ensures r.Err? ==> r.error != Empty
    ensures r.Ok? ==> acc <= r.value
    decreases |digits|
  {
    if digits == [] then Ok(acc)
    else if !IsDigit(digits[0]) then Err(InvalidDigit)
    else
      var next := 10 * acc + DigitValue(digits[0]);
      if next > MAX_U64 then Err(PosOverflow) else Accumulate(digits[1..], next)
  }

  /** Index of the first character of `s` that is not a digit, or `|s|` when there is none. */
  function FirstNonDigit(s: string): (k: nat)
    ensures k <= |s| && AllDigits(s[..k])
    ensures k < |s| ==> !IsDigit(s[k])
    decreases |s|
  {
    if s == [] || !IsDigit(s[0]) then 0
    else
      var k := 1 + FirstNonDigit(s[1..]);
      assert s[..k] == [s[0]] + s[1..][..k - 1];
      k
  }

  lemma {:induction false} ValuePrefixMonotone(s: string, t: string)
    requires AllDigits(s) && AllDigits(t)
    ensures AllDigits(s + t) && Value(s) <= Value(s + t)
    decreases |t|
  {
    if t != [] {
      var t' := t[..|t| - 1];
      assert (s + t)[..|s + t| - 1] == s + t';
      ValuePrefixMonotone(s, t');
    } else {
      assert s + t == s;
    }
  }

  /**
   * Consuming `digits` with the value of the already consumed prefix `pre` as
   * accumulator succeeds exactly when the whole text is digits and fits in a
   * u64, and then yields the value of the whole text.
   */
  lemma {:induction false} AccumulateValue(pre: string, digits: string)
    requires AllDigits(pre) && Value(pre) <= MAX_U64
    ensures AllDigits(digits) ==> AllDigits(pre + digits)
    ensures Accumulate(digits, Value(pre)).Ok? <==> AllDigits(digits) && Value(pre + digits) <= MAX_U64
    ensures Accumulate(digits, Value(pre)).Ok? ==> Accumulate(digits, Value(pre)).value == Value(pre + digits)
    ensures AllDigits(digits) && Value(pre + digits) > MAX_U64 ==> Accumulate(digits, Value(pre)) == Err(PosOverflow)
    decreases |digits|
  {
    if digits == [] {
      assert pre + digits == pre;
    } else if IsDigit(digits[0]) {
      var pre' := pre + [digits[0]];
      assert pre'[..|pre'| - 1] == pre;
      assert pre' + digits[1..] == pre + digits;
      if Value(pre') <= MAX_U64 {
        AccumulateValue(pre', digits[1..]);
      } else if AllDigits(digits) {
        ValuePrefixMonotone(pre', digits[1..]);
      }
    }
  }

  /**
   * Which error the digit loop reports is decided by the digits before the
   * first non-digit: `PosOverflow` when they (after `pre`) already exceed
   * `u64::MAX`, `InvalidDigit` when they fit and a non-digit follows.
   */
  lemma {:induction false} AccumulateErrorKind(pre: string, digits: string)
    requires AllDigits(pre) && Value(pre) <= MAX_U64
    ensures var k := FirstNonDigit(digits);
      && AllDigits(pre + digits[..k])
      && (Value(pre + digits[..k]) > MAX_U64 ==> Accumulate(digits, Value(pre)) == Err(PosOverflow))
      && (k < |digits| && Value(pre + digits[..k]) <= MAX_U64 ==> Accumulate(digits, Value(pre)) == Err(InvalidDigit))
    decreases |digits|
  {
    var k := FirstNonDigit(digits);
    if digits == [] || !IsDigit(digits[0]) {
      assert pre + digits[..k] == pre;
    } else {
      var pre' := pre + [digits[0]];
      var rest := digits[1..];
      assert pre'[..|pre'| - 1] == pre;
      assert k == 1 + FirstNonDigit(rest);
      assert pre' + rest[..k - 1] == pre + digits[..k];
      if Value(pre') <= MAX_U64 {
        AccumulateErrorKind(pre', rest);
      } else {
        ValuePrefixMonotone(pre', rest[..k - 1]);
      }
    }
  }

  /** `u64::from_str` on a decimal string. */
  function ParseU64(s: string): (r: Result<U64, IntErrorKind>)
    ensures r.Ok? <==> IsU64Text(s)
    ensures r.Ok? ==> r.value == Value(Unsigned(s))
    ensures r == Err(Empty) <==> s == []
    ensures |Unsigned(s)| > 0 && AllDigits(Unsigned(s)) && !IsU64Text(s) ==> r == Err(PosOverflow)
    ensures s != [] && Unsigned(s) == [] ==> r == Err(InvalidDigit)
    ensures var d := Unsigned(s); var k := FirstNonDigit(d);
      && (|d| > 0 && Value(d[..k]) > MAX_U64 ==> r == Err(PosOverflow))
      && (k < |d| && Value(d[..k]) <= MAX_U64 ==> r == Err(InvalidDigit))
  {
    if s == [] then Err(Empty)
    else if s == "+" || s == "-" then Err(InvalidDigit)
    else
      AccumulateValue([], Unsigned(s));
      AccumulateErrorKind([], Unsigned(s));
      assert [] + Unsigned(s) == Unsigned(s);
      assert [] + Unsigned(s)[..FirstNonDigit(Unsigned(s))] == Unsigned(s)[..FirstNonDigit(Unsigned(s))];
      Accumulate(Unsigned(s), 0)
  }

  /** `{}` formatting of an unsigned integer: shortest decimal digits, no sign. */
  function Decimal(n: nat): (s: string)
    ensures |s| > 0 && AllDigits(s) && Value(s) == n
    ensures n > 0 ==> s[0] != '0'
    ensures |s| > 1 ==> s[0] != '0'
    decreases n
  {
    if n < 10 then [DigitChar(n)]
    else
      var s := Decimal(n / 10) + [DigitChar(n % 10)];
      assert s[..|s| - 1] == Decimal(n / 10);
      s
  }

  /** Parsing undoes formatting on every u64. */
  lemma DecimalRoundTrip(n: U64)
    ensures ParseU64(Decimal(n)) == Ok(n)
  {
  }
}
