/** Python scalars as they reach the collection layer, and the builtin conversions the
    layer applies to them: truth value, `float()`, `int(float())`,
    `datetime.strptime(_, '%Y-%m-%d')` and `date.strftime('%Y-%m-%d')`. */
module Scalars {

  datatype Option<+T> = None | Some(value: T)

  /** The exception classes the core raises or catches. */
  datatype Exc = TypeError | ValueError | KeyError | AttributeError | SqliteError

  /** A Python call: it returns a value or raises. */
  datatype Outcome<+T> = Ok(value: T) | Raised(exc: Exc)

  // ---------------------------------------------------------------------------
  // Calendar dates (datetime.date)
  // ---------------------------------------------------------------------------

  datatype DateRec = DateRec(year: int, month: int, day: int)

  predicate IsLeapYear(y: int) {
    y % 4 == 0 && (y % 100 != 0 || y % 400 == 0)
  }

  function DaysInMonth(y: int, m: int): (n: int)
    requires 1 <= m <= 12
    ensures 28 <= n <= 31
    ensures n == 29 <==> m == 2 && IsLeapYear(y)
  {
    if m == 2 then (if IsLeapYear(y) then 29 else 28)
    else if m == 4 || m == 6 || m == 9 || m == 11 then 30
    else 31
  }

  /** `datetime.date` admits years 1..9999 and only days that exist in the month. */
  predicate IsCalendarDate(d: DateRec) {
    1 <= d.year <= 9999 && 1 <= d.month <= 12 && 1 <= d.day <= DaysInMonth(d.year, d.month)
  }

  type Date = d: DateRec | IsCalendarDate(d) witness DateRec(1, 1, 1)

  // ---------------------------------------------------------------------------
  // Values
  // ---------------------------------------------------------------------------

  /** A scalar in a provider payload, a record dictionary or a bound SQL parameter. */
  datatype Value = VNone | VStr(s: string) | VInt(i: int) | VReal(r: real) | VDate(d: Date)

  /** A JSON object or a Python dict with string keys. */
  type Payload = map<string, Value>

  /** `p.get(key)` */
  function Get(p: Payload, key: string): Value {
    if key in p then p[key] else VNone
  }

  /** `p.get(key, default)`: the default applies only when the key is absent. */
  function GetOr(p: Payload, key: string, default: Value): Value {
    if key in p then p[key] else default
  }

  /** Python truth value. */
  predicate Truthy(v: Value) {
    match v
    case VNone => false
    case VStr(s) => s != ""
    case VInt(i) => i != 0
    case VReal(r) => r != 0.0
    case VDate(_) => true
  }

  /** `v in ['None', '-', 'N/A', '', None]`: only a str or None can compare equal to a member. */
  predicate IsSentinel(v: Value) {
    v == VNone || v == VStr("None") || v == VStr("-") || v == VStr("N/A") || v == VStr("")
  }

  // ---------------------------------------------------------------------------
  // float() and int() on strings and numbers
  // ---------------------------------------------------------------------------

  predicate IsDigit(c: char) {
    '0' <= c <= '9'
  }

  predicate AllDigits(s: string) {
    forall i :: 0 <= i < |s| ==> IsDigit(s[i])
  }

  function DigitValue(c: char): nat
    requires IsDigit(c)
  {
    c as int - '0' as int
  }

  /** The number a string of decimal digits denotes. */
  function DigitsValue(s: string): nat
    requires AllDigits(s)
  {
    if s == [] then 0 else 10 * DigitsValue(s[..|s| - 1]) + DigitValue(s[|s| - 1])
  }

  function Pow10(n: nat): (p: nat)
    ensures p >= 1
  {
    if n == 0 then 1 else 10 * Pow10(n - 1)
  }

  /** Position of the first `c` in `s`, or `|s|` when there is none. */
  function IndexOf(s: string, c: char): (k: nat)
    ensures k <= |s|
    ensures k < |s| ==> s[k] == c
    ensures forall i :: 0 <= i < k ==> s[i] != c
  {
    if s == [] then 0 else if s[0] == c then 0 else 1 + IndexOf(s[1..], c)
  }

  /** Digits with an optional fractional part and at least one digit: "12", "12.", ".5", "12.50". */
  function ParseUnsigned(s: string): Option<real> {
    var k := IndexOf(s, '.');
    var whole := s[..k];
    var frac := if k < |s| then s[k + 1..] else [];
    if |whole| + |frac| > 0 && AllDigits(whole) && AllDigits(frac) then
      Some(DigitsValue(whole) as real + DigitsValue(frac) as real / Pow10(|frac|) as real)
    else
      None
  }

  /** `float(s)` for a str: an optional sign, then a decimal numeral. None stands for ValueError. */
  function ParseFloat(s: string): Option<real> {
    if |s| > 0 && (s[0] == '+' || s[0] == '-') then
      match ParseUnsigned(s[1..])
      case None => None
      case Some(x) => Some(if s[0] == '-' then -x else x)
    else
      ParseUnsigned(s)
  }

  /** `float(v)`; None stands for the ValueError or TypeError it raises. */
  function PyFloat(v: Value): Option<real> {
    match v
    case VStr(s) => ParseFloat(s)
    case VInt(i) => Some(i as real)
    case VReal(r) => Some(r)
    case VNone => None
    case VDate(_) => None
  }

  /** `int(x)` for a float: rounds toward zero. */
  function Truncate(x: real): (n: int)
    ensures 0.0 <= x ==> 0 <= n && n as real <= x < n as real + 1.0
    ensures x < 0.0 ==> n <= 0 && n as real - 1.0 < x <= n as real
  {
    if x >= 0.0 then x.Floor else -((-x).Floor)
  }

  // ---------------------------------------------------------------------------
  // strptime(s, '%Y-%m-%d') as CPython's _strptime does it, with \d read as an ASCII
  // digit: the format becomes the regular expression
  // (\d\d\d\d)-(1[0-2]|0[1-9]|[1-9])-(3[01]|[12]\d|0[1-9]|[1-9]| [1-9]),
  // matched at the start of s; text left over after the match is a ValueError, and so
  // is a day that does not exist in the month or the year 0.
  // ---------------------------------------------------------------------------

  /** The `%m-` part: the first month alternative that is followed by '-'.
      Gives the month and the number of characters consumed, dash included. */
  function MonthAndDash(t: string): (r: Option<(int, nat)>)
    ensures r.Some? ==> 1 <= r.value.0 <= 12 && 2 <= r.value.1 <= 3 && r.value.1 <= |t|
  {
    if |t| >= 3 && t[0] == '1' && '0' <= t[1] <= '2' && t[2] == '-' then Some((10 + DigitValue(t[1]), 3))
    else if |t| >= 3 && t[0] == '0' && '1' <= t[1] <= '9' && t[2] == '-' then Some((DigitValue(t[1]), 3))
    else if |t| >= 2 && '1' <= t[0] <= '9' && t[1] == '-' then Some((DigitValue(t[0]), 2))
    else None
  }

  /** The `%d` part: the first day alternative that matches at the start of t
      (nothing follows it in the pattern, so the regex engine never backtracks into it). */
  function DayPrefix(t: string): (r: Option<(int, nat)>)
    ensures r.Some? ==> 1 <= r.value.0 <= 31 && 1 <= r.value.1 <= 2 && r.value.1 <= |t|
  {
    if |t| >= 2 && t[0] == '3' && (t[1] == '0' || t[1] == '1') then Some((30 + DigitValue(t[1]), 2))
    else if |t| >= 2 && (t[0] == '1' || t[0] == '2') && IsDigit(t[1]) then Some((10 * DigitValue(t[0]) + DigitValue(t[1]), 2))
    else if |t| >= 2 && t[0] == '0' && '1' <= t[1] <= '9' then Some((DigitValue(t[1]), 2))
    else if |t| >= 1 && '1' <= t[0] <= '9' then Some((DigitValue(t[0]), 1))
    else if |t| >= 2 && t[0] == ' ' && '1' <= t[1] <= '9' then Some((DigitValue(t[1]), 2))
    else None
  }

  /** `datetime.strptime(s, '%Y-%m-%d').date()`; None stands for the ValueError it raises.
      A date is produced only from 8 to 10 characters: four year digits, a dash, a one- or
      two-digit month, a dash and a one- or two-character day. */
  function Strptime(s: string): (r: Option<Date>)
    ensures r.Some? ==> 8 <= |s| <= 10 && AllDigits(s[..4]) && s[4] == '-'
  {
    if |s| < 5 || !AllDigits(s[..4]) || s[4] != '-' then None
    else
      match MonthAndDash(s[5..])
      case None => None
      case Some((m, k)) =>
        match DayPrefix(s[5 + k..])
        case None => None
        case Some((d, j)) =>
          var date := DateRec(DigitsValue(s[..4]), m, d);
          if 5 + k + j == |s| && IsCalendarDate(date) then Some(date) else None
  }

  // ---------------------------------------------------------------------------
  // strftime('%Y-%m-%d')
  // ---------------------------------------------------------------------------

  function DigitChar(n: int): (c: char)
    requires 0 <= n <= 9
    ensures IsDigit(c) && DigitValue(c) == n
  {
    ('0' as int + n) as char
  }

  /** The last `width` decimal digits of n, zero-padded on the left. */
  function Padded(n: nat, width: nat): (s: string)
    ensures |s| == width && AllDigits(s)
  {
    if width == 0 then [] else Padded(n / 10, width - 1) + [DigitChar(n % 10)]
  }

  /** `d.strftime('%Y-%m-%d')` */
  function Strftime(d: Date): (s: string)
    ensures |s| == 10 && s[4] == '-' && s[7] == '-'
  {
    Padded(d.year, 4) + "-" + Padded(d.month, 2) + "-" + Padded(d.day, 2)
  }

  /** Padding loses nothing when the number fits in the width. */
  lemma {:induction false} PaddedValue(n: nat, width: nat)
    requires n < Pow10(width)
    ensures DigitsValue(Padded(n, width)) == n
  {
    if width > 0 {
      var p := Padded(n, width);
      PaddedValue(n / 10, width - 1);
      assert p[..|p| - 1] == Padded(n / 10, width - 1);
    }
  }

  lemma TwoDigits(n: nat)
    requires n < 100
    ensures Padded(n, 2) == [DigitChar(n / 10), DigitChar(n % 10)]
  {
    var hi := n / 10;
    assert hi < 10 && hi / 10 == 0 && hi % 10 == hi;
    assert Padded(hi, 1) == Padded(0, 0) + [DigitChar(hi)];
  }

  /** strptime reads back every date strftime writes. */
  lemma StrptimeInvertsStrftime(d: Date)
    ensures Strptime(Strftime(d)) == Some(d)
  {
    var s := Strftime(d);
    var y, m, dd := Padded(d.year, 4), Padded(d.month, 2), Padded(d.day, 2);
    assert s == y + "-" + m + "-" + dd;
    assert s[..4] == y;
    PaddedValue(d.year, 4);
    assert s[5..] == m + "-" + dd;
    MonthReadBack(d.month, dd);
    DayReadBack(d.day);
    assert s[8..] == dd;
  }

  /** A two-digit month followed by a dash is read as that month, three characters. */
  lemma MonthReadBack(month: int, rest: string)
    requires 1 <= month <= 12
    ensures MonthAndDash(Padded(month, 2) + "-" + rest) == Some((month, 3))
  {
    TwoDigits(month);
  }

  /** A two-digit day is read as that day, two characters. */
  lemma DayReadBack(day: int)
    requires 1 <= day <= 31
    ensures DayPrefix(Padded(day, 2)) == Some((day, 2))
  {
    TwoDigits(day);
  }
}
