/** JavaScript numbers and the three string-to-number conversions the source
    uses: `parseFloat` (longest numeric prefix), `parseInt` without a radix
    (longest integer prefix, `0x` selects base 16) and `ToNumber` (the whole
    trimmed string must be a literal, as in unary `+` and global `isNaN`).
    Values are exact reals: IEEE-754 rounding and overflow to Infinity are
    not represented.
 */
module Numbers {
  import opened Common
  import opened Text

  datatype Number = Finite(value: real) | Infinite(negative: bool) | NaN

  predicate IsDigitIn(c: char, base: nat) {
    || ('0' <= c <= '9' && (c as int - '0' as int) < base)
    || (base == 16 && ('a' <= c <= 'f' || 'A' <= c <= 'F'))
  }

  function DigitValue(c: char): nat {
    if '0' <= c <= '9' then c as int - '0' as int
    else if 'a' <= c <= 'f' then c as int - 'a' as int + 10
    else if 'A' <= c <= 'F' then c as int - 'A' as int + 10
    else 0
  }

  predicate AllDigitsIn(d: string, base: nat) {
    forall i :: 0 <= i < |d| ==> IsDigitIn(d[i], base)
  }

  /** Length of the longest prefix of `s` made of digits of `base`. */
  function DigitRun(s: string, base: nat): (k: nat)
    ensures k <= |s|
    ensures AllDigitsIn(s[..k], base)
    ensures k < |s| ==> !IsDigitIn(s[k], base)
    decreases |s|
  {
    if |s| > 0 && IsDigitIn(s[0], base) then
      var k := 1 + DigitRun(s[1..], base);
      assert s[..k] == [s[0]] + s[1..][..k - 1];
      k
    else 0
  }

  /** The value of a digit string, most significant digit first. */
  function ValueOf(d: string, base: nat): nat {
    if |d| == 0 then 0 else ValueOf(d[..|d| - 1], base) * base + DigitValue(d[|d| - 1])
  }

  function Pow10(e: int): (p: real)
    ensures p > 0.0
    decreases if e < 0 then -e else e
  {
    if e == 0 then 1.0 else if e > 0 then 10.0 * Pow10(e - 1) else Pow10(e + 1) / 10.0
  }

  /** An ExponentPart (`e` or `E`, optional sign, at least one digit) at the
      start of `s`, as (exponent, characters consumed). */
  function ExponentPrefix(s: string): Option<(int, nat)> {
    if |s| == 0 || (s[0] != 'e' && s[0] != 'E') then None
    else
      var signed := |s| > 1 && (s[1] == '+' || s[1] == '-');
      var digits := if signed then s[2..] else s[1..];
      var k := DigitRun(digits, 10);
      if k == 0 then None
      else
        var e := ValueOf(digits[..k], 10);
        var exponent: int := if signed && s[1] == '-' then -(e as int) else e as int;
        Some((exponent, (if signed then 2 else 1) + k))
  }

  /** The longest StrUnsignedDecimalLiteral at the start of `s` (digits with
      an optional fraction, or a fraction alone, then an optional exponent),
      as (value, characters consumed). */
  function UnsignedDecimalPrefix(s: string): Option<(real, nat)> {
    var k := DigitRun(s, 10);
    var intValue := ValueOf(s[..k], 10) as real;
    var mantissa: Option<(real, nat)> :=
      if k < |s| && s[k] == '.' then
        var f := DigitRun(s[k + 1..], 10);
        if k == 0 && f == 0 then None
        else Some((intValue + ValueOf(s[k + 1..][..f], 10) as real / Pow10(f), k + 1 + f))
      else if k == 0 then None
      else Some((intValue, k));
    match mantissa
    case None => None
    case Some((m, used)) =>
      match ExponentPrefix(s[used..])
      case None => Some((m, used))
      case Some((e, more)) => Some((m * Pow10(e), used + more))
  }

  /** An optional `+` or `-` at the start of `s`: (negative, the rest). */
  function Sign(s: string): (bool, string) {
    if |s| > 0 && (s[0] == '+' || s[0] == '-') then (s[0] == '-', s[1..]) else (false, s)
  }

  function Negate(negative: bool, v: real): real {
    if negative then -v else v
  }

  /** `parseFloat(s)`. */
  function ParseFloat(s: string): Number {
    var (negative, body) := Sign(TrimStart(s));
    if StartsWith(body, "Infinity") then Infinite(negative)
    else
      match UnsignedDecimalPrefix(body)
      case None => NaN
      case Some((v, _)) => Finite(Negate(negative, v))
  }

  /** What `parseFloat` looks at to decide between a number and NaN: after the
      leading whitespace and an optional sign, "Infinity", a digit, or a
      point followed by a digit. */
  predicate HasNumericPrefix(s: string) {
    var body := Sign(TrimStart(s)).1;
    || StartsWith(body, "Infinity")
    || (|body| > 0 && IsDigitIn(body[0], 10))
    || (|body| > 1 && body[0] == '.' && IsDigitIn(body[1], 10))
  }

  /** `isNaN(parseFloat(s))` holds exactly when `s` has no numeric prefix. */
  lemma {:induction false} ParseFloatNaN(s: string)
    ensures ParseFloat(s).NaN? <==> !HasNumericPrefix(s)
  {
    var body := Sign(TrimStart(s)).1;
    if !StartsWith(body, "Infinity") {
      var k := DigitRun(body, 10);
      if |body| > 0 && IsDigitIn(body[0], 10) {
        assert k > 0;
      } else if |body| > 1 && body[0] == '.' && IsDigitIn(body[1], 10) {
        assert k == 0;
        assert DigitRun(body[1..], 10) > 0;
      }
    }
  }

  /** A leading space does not change what `parseFloat` reads. */
  lemma {:induction false} ParseFloatSkipsSpace(s: string)
    ensures ParseFloat([' '] + s) == ParseFloat(s)
    ensures HasNumericPrefix([' '] + s) == HasNumericPrefix(s)
  {
    assert ([' '] + s)[1..] == s;
  }

  /** `+s` (ToNumber on a string). `0x`, `0o` and `0b` literals take no sign. */
  function ToNumber(s: string): Number {
    var t := Trim(s);
    if t == "" then Finite(0.0)
    else if |t| >= 2 && t[0] == '0' && t[1] in "xXoObB" then
      var base := if t[1] in "xX" then 16 else if t[1] in "oO" then 8 else 2;
      var digits := t[2..];
      if |digits| > 0 && AllDigitsIn(digits, base) then Finite(ValueOf(digits, base) as real) else NaN
    else
      var (negative, body) := Sign(t);
      if body == "Infinity" then Infinite(negative)
      else
        match UnsignedDecimalPrefix(body)
        case Some((v, used)) => if used == |body| then Finite(Negate(negative, v)) else NaN
        case None => NaN
  }

  /** `parseInt(s)` with no radix argument. */
  function ParseInt(s: string): Number {
    var (negative, body) := Sign(TrimStart(s));
    var hex := StartsWith(body, "0x") || StartsWith(body, "0X");
    var base := if hex then 16 else 10;
    var digits := if hex then body[2..] else body;
    var k := DigitRun(digits, base);
    if k == 0 then NaN else Finite(Negate(negative, ValueOf(digits[..k], base) as real))
  }

  /** `String(n)` for a natural number: its decimal digits. */
  function NatText(n: nat): (d: string)
    ensures |d| > 0 && AllDigitsIn(d, 10)
  {
    if n < 10 then ['0' + n as char] else NatText(n / 10) + ['0' + (n % 10) as char]
  }

  lemma {:induction false} NatTextValue(n: nat)
    ensures ValueOf(NatText(n), 10) == n
    decreases n
  {
    var d := NatText(n);
    if n >= 10 {
      assert d[..|d| - 1] == NatText(n / 10);
      NatTextValue(n / 10);
    }
  }

  lemma {:induction false} DigitRunOfDigits(s: string, base: nat)
    requires AllDigitsIn(s, base)
    ensures DigitRun(s, base) == |s|
    decreases |s|
  {
    if |s| > 0 {
      DigitRunOfDigits(s[1..], base);
    }
  }

  lemma {:induction false} NatTextShape(n: nat)
    ensures Trim(NatText(n)) == NatText(n) && TrimStart(NatText(n)) == NatText(n)
    ensures Sign(NatText(n)) == (false, NatText(n))
    ensures !StartsWith(NatText(n), "Infinity") && NatText(n) != "Infinity"
    ensures !StartsWith(NatText(n), "0x") && !StartsWith(NatText(n), "0X")
    ensures !(|NatText(n)| >= 2 && NatText(n)[1] in "xXoObB")
  {
    var d := NatText(n);
    assert !IsWhitespace(d[0]) && !IsWhitespace(d[|d| - 1]);
    TrimUnchanged(d);
    assert IsDigitIn(d[0], 10);
    if |d| >= 2 { assert IsDigitIn(d[1], 10); }
  }

  lemma {:induction false} NatTextDecimal(n: nat)
    ensures UnsignedDecimalPrefix(NatText(n)) == Some((n as real, |NatText(n)|))
  {
    var d := NatText(n);
    NatTextValue(n);
    DigitRunOfDigits(NatText(n), 10);
    assert d[..|d|] == d;
    assert d[|d|..] == "";
  }

  /** The decimal text of a natural number reads back as that number under
      all three conversions. */
  lemma {:induction false} NatTextRoundTrip(n: nat)
    ensures ParseFloat(NatText(n)) == Finite(n as real)
    ensures ToNumber(NatText(n)) == Finite(n as real)
    ensures ParseInt(NatText(n)) == Finite(n as real)
  {
    var d := NatText(n);
    NatTextShape(n);
    NatTextDecimal(n);
    NatTextValue(n);
    DigitRunOfDigits(NatText(n), 10);
    assert d[..|d|] == d;
  }

  /** Whether a number compares below zero (`-Infinity` and the negative
      reals). Zero has no sign here: `-0` is not represented. */
  predicate IsNegative(x: Number) {
    (x.Infinite? && x.negative) || (x.Finite? && x.value < 0.0)
  }

  /** `a * b`. */
  function Mul(a: Number, b: Number): (r: Number)
    ensures a.Finite? && b.Finite? ==> r == Finite(a.value * b.value)
    ensures r.NaN? <==> a.NaN? || b.NaN? || (a.Infinite? && b == Finite(0.0)) || (b.Infinite? && a == Finite(0.0))
  {
    if a.NaN? || b.NaN? then NaN
    else if a.Finite? && b.Finite? then Finite(a.value * b.value)
    else if a == Finite(0.0) || b == Finite(0.0) then NaN
    else Infinite(IsNegative(a) != IsNegative(b))
  }

  /** `a / b`. Dividing a non-zero number by zero gives an infinity of the
      dividend's sign, and `0 / 0` is NaN. */
  function Div(a: Number, b: Number): (r: Number)
    ensures a.Finite? && b.Finite? && b.value != 0.0 ==> r == Finite(a.value / b.value)
    ensures r.NaN? <==> a.NaN? || b.NaN? || (a.Infinite? && b.Infinite?) || (a == Finite(0.0) && b == Finite(0.0))
  {
    if a.NaN? || b.NaN? then NaN
    else if a.Infinite? && b.Infinite? then NaN
    else if b.Infinite? then Finite(0.0)
    else if a.Infinite? then Infinite(IsNegative(a) != IsNegative(b))
    else if b.value == 0.0 then (if a.value == 0.0 then NaN else Infinite(a.value < 0.0))
    else Finite(a.value / b.value)
  }

  /** `a < b`: false whenever either side is NaN. */
  predicate Less(a: Number, b: Number) {
    match (a, b)
    case (NaN, _) => false
    case (_, NaN) => false
    case (Finite(x), Finite(y)) => x < y
    case (Infinite(n), Finite(_)) => n
    case (Finite(_), Infinite(n)) => !n
    case (Infinite(n), Infinite(m)) => n && !m
  }

  /** On numbers other than NaN, `<` is a strict total order. */
  lemma {:induction false} LessTotal(a: Number, b: Number)
    requires !a.NaN? && !b.NaN?
    ensures Less(a, b) || Less(b, a) || a == b
    ensures !(Less(a, b) && Less(b, a))
  {
  }
}
