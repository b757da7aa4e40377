/**
 * The few JavaScript value semantics the handlers rely on: truthiness,
 * `Number(...)` on strings, template-literal rendering of `undefined`,
 * `String.prototype.toLowerCase` and the `Date` getters.
 */
module Js {
  import opened Wrappers

  /** A string that may be `undefined` (None). */
  type JsString = Option<string>

  /** A number that may be `undefined` or NaN (None). Fractions are not modelled. */
  type JsNumber = Option<int>

  /** `!!s` for a string: `undefined` and "" are falsy. */
  predicate StringTruthy(s: JsString)
  {
    s.Some? && s.value != ""
  }

  /** `!!n` for a number: `undefined`, NaN and 0 are falsy. */
  predicate NumberTruthy(n: JsNumber)
  {
    n.Some? && n.value != 0
  }

  /** `x || 0` for a number that may be missing. */
  function OrZero(n: JsNumber): int
  {
    n.GetOr(0)
  }

  /** `${x}` inside a template literal: a missing value renders as "undefined". */
  function Segment(x: JsString): string
  {
    x.GetOr("undefined")
  }

  // ---------------------------------------------------------------------------
  // Number(s) on decimal strings, and String(n) on integers

  predicate IsDigit(c: char)
  {
    '0' <= c <= '9'
  }

  predicate AllDigits(s: string)
  {
    forall i :: 0 <= i < |s| ==> IsDigit(s[i])
  }

  function DigitValue(c: char): nat
    requires IsDigit(c)
  {
    c as int - '0' as int
  }

  function DigitChar(d: nat): (c: char)
    requires d < 10
    ensures IsDigit(c) && DigitValue(c) == d
  {
    ('0' as int + d) as char
  }

  /** The value of a string of decimal digits, most significant first. */
  function DigitsValue(s: string): nat
    requires AllDigits(s)
  {
    if s == [] then 0 else DigitsValue(s[..|s| - 1]) * 10 + DigitValue(s[|s| - 1])
  }

  /**
   * `Number(s)`: `undefined` gives NaN, "" gives 0, an optionally signed run of
   * decimal digits gives its value; every other string gives NaN here.
   */
  function ToNumber(s: JsString): (n: JsNumber)
    ensures s == Some("") ==> n == Some(0)
    ensures s.None? ==> n.None?
  {
    match s
    case None => None
    case Some(t) =>
      if t == "" then Some(0)
      else if AllDigits(t) then Some(DigitsValue(t))
      else if |t| > 1 && (t[0] == '-' || t[0] == '+') && AllDigits(t[1..]) then
        var magnitude: int := DigitsValue(t[1..]);
        Some(if t[0] == '-' then -magnitude else magnitude)
      else None
  }

  /** Decimal digits of a natural number, without leading zeros. */
  function Decimal(n: nat): (s: string)
    ensures s != [] && AllDigits(s)
  {
    if n < 10 then [DigitChar(n)] else Decimal(n / 10) + [DigitChar(n % 10)]
  }

  /** `String(n)` for an integer. */
  function IntString(n: int): string
  {
    if n < 0 then "-" + Decimal(-n) else Decimal(n)
  }

  lemma {:induction false} DecimalValue(n: nat)
    ensures DigitsValue(Decimal(n)) == n
  {
    if n >= 10 {
      var s := Decimal(n);
      assert s[..|s| - 1] == Decimal(n / 10);
      DecimalValue(n / 10);
    }
  }

  /** `Number(String(n)) === n` for every integer `n`. */
  lemma NumberOfIntString(n: int)
    ensures ToNumber(Some(IntString(n))) == Some(n)
  {
    if n < 0 {
      var t := IntString(n);
      assert t[1..] == Decimal(-n);
      assert !AllDigits(t) by { assert !IsDigit(t[0]); }
      DecimalValue(-n);
    } else {
      DecimalValue(n);
    }
  }

  // ---------------------------------------------------------------------------
  // toLowerCase

  function LowerChar(c: char): char
  {
    if 'A' <= c <= 'Z' then (c as int + ('a' as int - 'A' as int)) as char else c
  }

  /** `s.toLowerCase()` on the ASCII letters; other characters are kept. */
  function ToLowerCase(s: string): (r: string)
    ensures |r| == |s|
    ensures forall i :: 0 <= i < |s| ==> r[i] == LowerChar(s[i])
  {
    seq(|s|, i requires 0 <= i < |s| => LowerChar(s[i]))
  }

  /** Lower-casing leaves no upper-case ASCII letter and is idempotent. */
  lemma LowerCaseNormal(s: string)
    ensures forall i :: 0 <= i < |s| ==> !('A' <= ToLowerCase(s)[i] <= 'Z')
    ensures ToLowerCase(ToLowerCase(s)) == ToLowerCase(s)
  {
  }

  // ---------------------------------------------------------------------------
  // Date getters

  /** `getMonth()`: 0 for January to 11 for December. */
  type Month = m: int | 0 <= m < 12

  /** `getDate()`: the day of the month. */
  type Day = d: int | 1 <= d <= 31 witness 1

  /** A calendar date as `getFullYear()`, `getMonth()` and `getDate()` report it. */
  datatype Date = Date(year: int, month: Month, day: Day)

  /** (month, day) of `a` comes strictly before that of `b` within a year. */
  predicate EarlierInYear(a: Date, b: Date)
  {
    a.month < b.month || (a.month == b.month && a.day < b.day)
  }

  /** `a` is on or before `b`. */
  predicate OnOrBefore(a: Date, b: Date)
  {
    a.year < b.year || (a.year == b.year && !EarlierInYear(b, a))
  }
}
