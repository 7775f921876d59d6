/**
 * JavaScript values as they reach the validators: a JSON body field, a form
 * value, or a CSV cell. Also the two numeric conversions the source calls,
 * `parseInt` and `Number`, restricted to the forms described at each.
 */
module JsValues {
  import opened Wrappers
  import opened Text

  /** A JavaScript value. `Num` is a finite number; `NaN` is the not-a-number value. */
  datatype Json =
    | Undefined
    | Null
    | Bool(b: bool)
    | Num(r: real)
    | NaN
    | Str(s: string)
    | List(items: seq<Json>)
    | Obj

  /** A record of named values; a key that is not present reads as `undefined`. */
  type Raw = map<string, Json>

  function Get(m: Raw, key: string): (v: Json)
    ensures key !in m ==> v == Undefined
    ensures key in m ==> v == m[key]
  {
    if key in m then m[key] else Undefined
  }

  /** JavaScript truthiness (`if (v)`, `v || d`, `v ? a : b`). */
  predicate Truthy(v: Json) {
    match v
    case Undefined => false
    case Null => false
    case Bool(b) => b
    case Num(r) => r != 0.0
    case NaN => false
    case Str(s) => s != ""
    case List(_) => true
    case Obj => true
  }

  /** The name zod gives the type it received, used in its `invalid_type` messages. */
  function TypeName(v: Json): string {
    match v
    case Undefined => "undefined"
    case Null => "null"
    case Bool(_) => "boolean"
    case Num(_) => "number"
    case NaN => "nan"
    case Str(_) => "string"
    case List(_) => "array"
    case Obj => "object"
  }

  /** `Number.isInteger` on a finite number. */
  predicate IsInteger(r: real) {
    r.Floor as real == r
  }

  /** The value of a digit character in base 16 or lower, if any. */
  function DigitValue(c: char): (d: Option<nat>)
    ensures d.Some? ==> d.value < 16
    ensures IsDigit(c) <==> d.Some? && d.value < 10
  {
    if '0' <= c <= '9' then Some(c as int - '0' as int)
    else if 'a' <= c <= 'f' then Some(c as int - 'a' as int + 10)
    else if 'A' <= c <= 'F' then Some(c as int - 'A' as int + 10)
    else None
  }

  predicate IsRadixDigit(c: char, radix: nat) {
    DigitValue(c).Some? && DigitValue(c).value < radix
  }

  /** The longest prefix of `s` made of digits of the given radix. */
  function DigitPrefix(s: string, radix: nat): (p: string)
    ensures |p| <= |s| && p == s[..|p|]
    ensures forall i :: 0 <= i < |p| ==> IsRadixDigit(p[i], radix)
    ensures |p| < |s| ==> !IsRadixDigit(s[|p|], radix)
  {
    if |s| > 0 && IsRadixDigit(s[0], radix) then [s[0]] + DigitPrefix(s[1..], radix) else ""
  }

  /** The number that the digit string `d` denotes in the given radix. */
  function DigitsValue(d: string, radix: nat): nat
    requires forall i :: 0 <= i < |d| ==> IsRadixDigit(d[i], radix)
  {
    if |d| == 0 then 0
    else
      var front := d[..|d| - 1];
      assert forall i :: 0 <= i < |front| ==> front[i] == d[i];
      assert IsRadixDigit(d[|d| - 1], radix);
      var hi: nat := DigitsValue(front, radix);
      var lo: nat := DigitValue(d[|d| - 1]).value;
      MulNat(hi, radix);
      hi * radix + lo
  }

  lemma MulNat(a: nat, b: nat)
    ensures a * b >= 0
  {
  }

  /**
   * `parseInt(s)` (with `allowHex`, no radix argument) or `parseInt(s, 10)`:
   * skip leading space, take an optional sign, take the longest digit prefix
   * and ignore whatever follows; `None` stands for `NaN` (no digit at all).
   */
  function ParseInt(s: string, allowHex: bool): Option<int> {
    var t := TrimStart(s);
    if |t| > 0 && t[0] == '-' then
      match ParseUnsigned(t[1..], allowHex)
      case Some(n) => Some(-n)
      case None => None
    else if |t| > 0 && t[0] == '+' then
      ParseUnsigned(t[1..], allowHex)
    else
      ParseUnsigned(t, allowHex)
  }

  /** A string whose first non-space character is neither a digit nor a sign parses to `NaN`. */
  lemma ParseIntNoDigits(s: string, allowHex: bool)
    requires var t := TrimStart(s); |t| == 0 || (!IsDigit(t[0]) && t[0] != '-' && t[0] != '+')
    ensures ParseInt(s, allowHex) == None
  {
    var t := TrimStart(s);
    if |t| > 0 {
      assert DigitValue(t[0]).None? || DigitValue(t[0]).value >= 10;
    }
  }

  /** The digits after the sign: a `0x`/`0X` prefix selects base 16 when allowed, otherwise base 10. */
  function ParseUnsigned(u: string, allowHex: bool): (r: Option<int>)
    ensures r.Some? ==> r.value >= 0
  {
    var hex := allowHex && |u| >= 2 && u[0] == '0' && (u[1] == 'x' || u[1] == 'X');
    var radix := if hex then 16 else 10;
    var d := DigitPrefix(if hex then u[2..] else u, radix);
    if |d| == 0 then None else Some(DigitsValue(d, radix))
  }

  function DigitChar(n: nat): (c: char)
    requires n < 10
    ensures IsDigit(c) && DigitValue(c) == Some(n)
  {
    ('0' as int + n) as char
  }

  /** The canonical decimal spelling of `n` (`String(n)`). */
  function DecimalString(n: nat): (s: string)
    ensures |s| >= 1 && AllDigits(s)
    ensures s[0] == '0' ==> n == 0
  {
    if n < 10 then [DigitChar(n)] else DecimalString(n / 10) + [DigitChar(n % 10)]
  }

  lemma {:induction false} DecimalValue(n: nat)
    ensures forall i :: 0 <= i < |DecimalString(n)| ==> IsRadixDigit(DecimalString(n)[i], 10)
    ensures DigitsValue(DecimalString(n), 10) == n
  {
    var s := DecimalString(n);
    assert forall i :: 0 <= i < |s| ==> IsDigit(s[i]);
    if n >= 10 {
      DecimalValue(n / 10);
      assert s[..|s| - 1] == DecimalString(n / 10);
    }
  }

  lemma {:induction false} DigitPrefixOfDigits(s: string)
    requires AllDigits(s)
    ensures DigitPrefix(s, 10) == s
  {
    if |s| > 0 {
      DigitPrefixOfDigits(s[1..]);
    }
  }

  /** `parseInt` reads back the decimal spelling of every natural number. */
  lemma ParseIntDecimal(n: nat, allowHex: bool)
    ensures ParseInt(DecimalString(n), allowHex) == Some(n)
  {
    var s := DecimalString(n);
    assert !IsSpace(s[0]) && s[0] != '-' && s[0] != '+';
    assert TrimStart(s) == s;
    ParseUnsignedDecimal(n, allowHex);
  }

  lemma ParseUnsignedDecimal(n: nat, allowHex: bool)
    ensures ParseUnsigned(DecimalString(n), allowHex) == Some(n)
  {
    var s := DecimalString(n);
    assert |s| >= 2 ==> s[1] != 'x' && s[1] != 'X';
    DigitPrefixOfDigits(s);
    DecimalValue(n);
  }

  /** `parseInt` ignores whatever follows the digits: `parseInt("12abc")` is 12. */
  lemma ParseIntIgnoresSuffix(n: nat, suffix: string, allowHex: bool)
    requires |suffix| > 0 && !IsDigit(suffix[0])
    requires n > 0 || !allowHex || (suffix[0] != 'x' && suffix[0] != 'X')
    ensures ParseInt(DecimalString(n) + suffix, allowHex) == Some(n)
  {
    var s := DecimalString(n);
    var w := s + suffix;
    assert w[0] == s[0] && !IsSpace(w[0]) && w[0] != '-' && w[0] != '+';
    assert TrimStart(w) == w;
    ParseUnsignedDigitsThen(n, suffix, allowHex);
  }

  lemma ParseUnsignedDigitsThen(n: nat, suffix: string, allowHex: bool)
    requires |suffix| > 0 && !IsDigit(suffix[0])
    requires n > 0 || !allowHex || (suffix[0] != 'x' && suffix[0] != 'X')
    ensures ParseUnsigned(DecimalString(n) + suffix, allowHex) == Some(n)
  {
    var s := DecimalString(n);
    var w := s + suffix;
    var hex := allowHex && |w| >= 2 && w[0] == '0' && (w[1] == 'x' || w[1] == 'X');
    assert !hex by {
      if n == 0 {
        assert s == [DigitChar(0)];
        assert w[1] == suffix[0];
      }
    }
    DigitPrefixOfDigitsThen(s, suffix);
    DecimalValue(n);
  }

  lemma {:induction false} DigitPrefixOfDigitsThen(s: string, suffix: string)
    requires AllDigits(s) && |suffix| > 0 && !IsDigit(suffix[0])
    ensures DigitPrefix(s + suffix, 10) == s
  {
    if |s| == 0 {
      assert (s + suffix)[0] == suffix[0];
    } else {
      assert (s + suffix)[1..] == s[1..] + suffix;
      DigitPrefixOfDigitsThen(s[1..], suffix);
      assert [s[0]] + s[1..] == s;
    }
  }

  function Pow10(k: nat): (p: nat)
    ensures p >= 1
  {
    if k == 0 then 1 else 10 * Pow10(k - 1)
  }

  /**
   * `Number(s)` for a string: surrounding space is ignored, the empty string
   * is 0, and a decimal literal `[+-]digits[.digits]` (at least one digit) is
   * its value. Every other spelling is `NaN` here (see README).
   */
  function StringToNumber(s: string): Json {
    var t := Trim(s);
    if t == "" then Num(0.0)
    else
      var u := if t[0] == '-' || t[0] == '+' then t[1..] else t;
      match UnsignedDecimal(u)
      case Some(m) => Num(if t[0] == '-' then -m else m)
      case None => NaN
  }

  /** The value of `digits[.digits]` with at least one digit. */
  function UnsignedDecimal(u: string): (r: Option<real>)
    ensures r.Some? ==> r.value >= 0.0
  {
    var ip := DigitPrefix(u, 10);
    var rest := u[|ip|..];
    if rest == "" && |ip| > 0 then Some(DigitsValue(ip, 10) as real)
    else if rest != "" && rest[0] == '.' && AllDigits(rest[1..]) && |ip| + |rest| > 1 then
      DigitPrefixOfDigits(rest[1..]);
      Some(DigitsValue(ip, 10) as real + DigitsValue(rest[1..], 10) as real / Pow10(|rest| - 1) as real)
    else None
  }

  /** `Number(v)`, for the values a form field can hold. */
  function ToNumber(v: Json): Json {
    match v
    case Undefined => NaN
    case Null => Num(0.0)
    case Bool(b) => Num(if b then 1.0 else 0.0)
    case Num(r) => Num(r)
    case NaN => NaN
    case Str(s) => StringToNumber(s)
    case List(_) => NaN
    case Obj => NaN
  }

  /** `Number` reads back the decimal spelling of every natural number. */
  lemma ToNumberDecimal(n: nat)
    ensures ToNumber(Str(DecimalString(n))) == Num(n as real)
  {
    var s := DecimalString(n);
    assert !IsSpace(s[0]) && !IsSpace(s[|s| - 1]) && s[0] != '-' && s[0] != '+';
    TrimOfTrimmed(s);
    UnsignedDecimalOfDigits(n);
  }

  lemma UnsignedDecimalOfDigits(n: nat)
    ensures UnsignedDecimal(DecimalString(n)) == Some(n as real)
  {
    var s := DecimalString(n);
    DigitPrefixOfDigits(s);
    assert s[|s|..] == "";
    DecimalValue(n);
  }
}
