/**
 * The JavaScript values and built-in conversions that the modelled code relies on:
 * truthiness, `String.prototype.trim`, `Number(...)`, `parseInt(..., 10)` and the
 * decimal rendering of integers. Numbers are restricted to integers plus NaN.
 */
module Js {

  datatype Option<+T> = None | Some(value: T) {
    function GetOr(default: T): T {
      match this
      case Some(v) => v
      case None => default
    }
  }

  /** The outcome of a call that may throw. */
  datatype Result<+T> = Ok(value: T) | Throws(message: string)

  /** A JavaScript value; objects (and arrays) are maps from property name to value. */
  datatype JsValue =
    | Undefined
    | Null
    | Bool(b: bool)
    | Num(n: int)
    | NaN
    | Str(s: string)
    | Obj(props: map<string, JsValue>)

  /** `!!v`: the falsy values are undefined, null, false, 0, NaN and "". */
  predicate Truthy(v: JsValue) {
    match v
    case Undefined => false
    case Null => false
    case Bool(b) => b
    case Num(n) => n != 0
    case NaN => false
    case Str(s) => s != ""
    case Obj(_) => true
  }

  /** `v?.key`: undefined on undefined or null, the own property on an object. */
  function OptionalGet(v: JsValue, key: string): JsValue {
    match v
    case Obj(props) => if key in props then props[key] else Undefined
    case _ => Undefined
  }

  // ---------------------------------------------------------------------------
  // Whitespace and trimming

  /** The characters `trim` and `parseInt` strip: WhiteSpace and LineTerminator of ECMA-262. */
  predicate IsSpace(c: char) {
    var n := c as int;
    n == 0x09 || n == 0x0A || n == 0x0B || n == 0x0C || n == 0x0D || n == 0x20 ||
    n == 0xA0 || n == 0x1680 || (0x2000 <= n <= 0x200A) || n == 0x2028 || n == 0x2029 ||
    n == 0x202F || n == 0x205F || n == 0x3000 || n == 0xFEFF
  }

  predicate AllSpace(s: string) {
    forall i :: 0 <= i < |s| ==> IsSpace(s[i])
  }

  /** `s.trimStart()`: the longest suffix of `s` that does not start with whitespace. */
  function TrimStart(s: string): (r: string)
    ensures |r| <= |s| && r == s[|s| - |r|..]
    ensures AllSpace(s[..|s| - |r|])
    ensures r == [] || !IsSpace(r[0])
  {
    if |s| > 0 && IsSpace(s[0]) then
      var r := TrimStart(s[1..]);
      assert s[..|s| - |r|] == [s[0]] + s[1..][..|s| - 1 - |r|];
      r
    else s
  }

  /** `s.trimEnd()`: the longest prefix of `s` that does not end with whitespace. */
  function TrimEnd(s: string): (r: string)
    ensures |r| <= |s| && r == s[..|r|]
    ensures AllSpace(s[|r|..])
    ensures r == [] || !IsSpace(r[|r| - 1])
  {
    if |s| > 0 && IsSpace(s[|s| - 1]) then
      var r := TrimEnd(s[..|s| - 1]);
      assert s[|r|..] == s[..|s| - 1][|r|..] + [s[|s| - 1]];
      r
    else s
  }

  /** `s.trim()`. */
  function Trim(s: string): (r: string)
    ensures |r| <= |s|
    ensures r == [] || (!IsSpace(r[0]) && !IsSpace(r[|r| - 1]))
  {
    var t := TrimStart(s);
    var r := TrimEnd(t);
    assert r != [] ==> r[0] == t[0];
    r
  }

  lemma {:induction false} TrimStartSkipsSpace(ws: string, s: string)
    requires AllSpace(ws)
    ensures TrimStart(ws + s) == TrimStart(s)
  {
    if ws == [] {
      assert ws + s == s;
    } else {
      assert (ws + s)[0] == ws[0];
      assert (ws + s)[1..] == ws[1..] + s;
      TrimStartSkipsSpace(ws[1..], s);
    }
  }

  lemma {:induction false} TrimEndSkipsSpace(s: string, ws: string)
    requires AllSpace(ws)
    ensures TrimEnd(s + ws) == TrimEnd(s)
  {
    if ws == [] {
      assert s + ws == s;
    } else {
      var n := |ws| - 1;
      assert (s + ws)[|s + ws| - 1] == ws[n];
      assert (s + ws)[..|s + ws| - 1] == s + ws[..n];
      TrimEndSkipsSpace(s, ws[..n]);
    }
  }

  lemma {:induction false} TrimStartKeepsTail(s: string, t: string)
    requires TrimStart(s) != []
    ensures TrimStart(s + t) == TrimStart(s) + t
  {
    if IsSpace(s[0]) {
      assert (s + t)[1..] == s[1..] + t;
      TrimStartKeepsTail(s[1..], t);
    }
  }

  /** A string that neither starts nor ends with whitespace is its own trim. */
  lemma TrimUnpadded(s: string)
    requires s == [] || (!IsSpace(s[0]) && !IsSpace(s[|s| - 1]))
    ensures Trim(s) == s
  {
  }

  /** Surrounding whitespace never changes what `trim` returns. */
  lemma TrimIgnoresPadding(ws1: string, s: string, ws2: string)
    requires AllSpace(ws1) && AllSpace(ws2)
    ensures Trim(ws1 + s + ws2) == Trim(s)
  {
    assert ws1 + s + ws2 == ws1 + (s + ws2);
    TrimStartSkipsSpace(ws1, s + ws2);
    if TrimStart(s) == [] {
      assert AllSpace(s);
      assert AllSpace(s + ws2);
      TrimStartSkipsSpace(s + ws2, []);
      assert s + ws2 + [] == s + ws2;
    } else {
      TrimStartKeepsTail(s, ws2);
      TrimEndSkipsSpace(TrimStart(s), ws2);
    }
  }

  // ---------------------------------------------------------------------------
  // Decimal digits

  predicate IsDigit(c: char) {
    '0' <= c <= '9'
  }

  predicate AllDigits(s: string) {
    forall i :: 0 <= i < |s| ==> IsDigit(s[i])
  }

  /** The value of a string of decimal digits (leading zeros allowed). */
  function DigitsValue(s: string): (r: nat)
    requires AllDigits(s)
  {
    if s == [] then 0
    else DigitsValue(s[..|s| - 1]) * 10 + (s[|s| - 1] as int - '0' as int)
  }

  /** The canonical decimal digits of a natural number. */
  function Digits(n: nat): (r: string)
    ensures r != [] && AllDigits(r)
    ensures r[0] != '0' || n == 0
  {
    var last := ['0' + (n % 10) as char];
    if n < 10 then last else Digits(n / 10) + last
  }

  lemma {:induction false} DigitsRoundTrip(n: nat)
    ensures DigitsValue(Digits(n)) == n
  {
    var d := Digits(n);
    if n >= 10 {
      DigitsRoundTrip(n / 10);
      assert d[..|d| - 1] == Digits(n / 10);
    }
  }

  /** Distinct naturals have distinct decimal digits. */
  lemma DigitsInjective()
    ensures forall a: nat, b: nat :: Digits(a) == Digits(b) ==> a == b
  {
    forall a: nat, b: nat | Digits(a) == Digits(b)
      ensures a == b
    {
      DigitsRoundTrip(a);
      DigitsRoundTrip(b);
    }
  }

  /** `String(n)` for an integer. */
  function DecimalString(n: int): (r: string)
    ensures r != [] && !IsSpace(r[0])
  {
    if n < 0 then "-" + Digits(-n) else Digits(n)
  }

  /** The number of leading decimal digits of `s`. */
  function DigitPrefix(s: string): (k: nat)
    ensures k <= |s| && AllDigits(s[..k])
    ensures k < |s| ==> !IsDigit(s[k])
  {
    if s == [] || !IsDigit(s[0]) then 0
    else
      var k := DigitPrefix(s[1..]);
      assert s[..k + 1] == [s[0]] + s[1..][..k];
      k + 1
  }

  lemma {:induction false} DigitPrefixOfDigits(d: string, rest: string)
    requires AllDigits(d)
    requires rest == [] || !IsDigit(rest[0])
    ensures DigitPrefix(d + rest) == |d|
  {
    if d != [] {
      assert (d + rest)[1..] == d[1..] + rest;
      DigitPrefixOfDigits(d[1..], rest);
    }
  }

  // ---------------------------------------------------------------------------
  // parseInt(s, 10) and Number(s)

  /** After whitespace, `parseInt` finds a number: a digit, or a sign and then a digit. */
  predicate StartsWithInteger(t: string) {
    t != [] && (IsDigit(t[0]) || ((t[0] == '-' || t[0] == '+') && |t| > 1 && IsDigit(t[1])))
  }

  /** The value of the longest run of leading decimal digits; None when `body` starts with none. */
  function DigitRun(body: string): (r: Option<nat>)
    ensures r.None? <==> body == [] || !IsDigit(body[0])
  {
    var k := DigitPrefix(body);
    if k == 0 then None else Some(DigitsValue(body[..k]))
  }

  /**
   * `parseInt(s, 10)`: skip leading whitespace, read an optional sign, then the
   * longest run of decimal digits. None stands for NaN (no digit at all).
   */
  function LeadingInteger(s: string): (r: Option<int>)
    ensures r.Some? <==> StartsWithInteger(TrimStart(s))
  {
    var t := TrimStart(s);
    var negative := t != [] && t[0] == '-';
    var body := if t != [] && (t[0] == '-' || t[0] == '+') then t[1..] else t;
    match DigitRun(body)
    case None => None
    case Some(v) =>
      var i: int := v;
      Some(if negative then -i else i)
  }

  lemma DigitRunOfDigits(d: string, rest: string)
    requires AllDigits(d) && d != []
    requires rest == [] || !IsDigit(rest[0])
    ensures DigitRun(d + rest) == Some(DigitsValue(d))
  {
    DigitPrefixOfDigits(d, rest);
    assert (d + rest)[..|d|] == d;
  }

  lemma TrimStartUnpadded(s: string)
    requires s != [] && !IsSpace(s[0])
    ensures TrimStart(s) == s
  {
  }

  lemma LeadingIntegerOfUnsigned(d: string, rest: string)
    requires AllDigits(d) && d != []
    requires rest == [] || !IsDigit(rest[0])
    ensures LeadingInteger(d + rest) == Some(DigitsValue(d))
  {
    var s := d + rest;
    assert s[0] == d[0];
    assert !IsSpace(s[0]) && s[0] != '-' && s[0] != '+';
    TrimStartUnpadded(s);
    DigitRunOfDigits(d, rest);
  }

  lemma LeadingIntegerAfterMinus(s: string, d: string, rest: string)
    requires AllDigits(d) && d != []
    requires rest == [] || !IsDigit(rest[0])
    requires s != [] && s[0] == '-' && s[1..] == d + rest
    ensures LeadingInteger(s) == Some(-(DigitsValue(d) as int))
  {
    TrimStartUnpadded(s);
    DigitRunOfDigits(d, rest);
  }

  lemma NegativeDecimalParts(n: int, rest: string)
    requires n < 0
    ensures var s := DecimalString(n) + rest;
      s != [] && s[0] == '-' && s[1..] == Digits(-n) + rest
  {
    var s := DecimalString(n) + rest;
    assert s == ['-'] + (Digits(-n) + rest);
  }

  /** `parseInt` reads back the decimal rendering of any integer, whatever non-digit text follows it. */
  lemma LeadingIntegerOfDecimal(n: int, rest: string)
    requires rest == [] || !IsDigit(rest[0])
    ensures LeadingInteger(DecimalString(n) + rest) == Some(n)
  {
    if n < 0 {
      NegativeDecimalParts(n, rest);
      LeadingIntegerAfterMinus(DecimalString(n) + rest, Digits(-n), rest);
      DigitsRoundTrip(-n);
    } else {
      LeadingIntegerOfUnsigned(Digits(n), rest);
      DigitsRoundTrip(n);
    }
  }

  /**
   * `Number(s)` for a string, restricted to integer literals: the trimmed string
   * is empty (0) or an optional sign followed by decimal digits only. None is NaN.
   */
  function StringToNumber(s: string): (r: Option<int>)
    ensures Trim(s) == "" ==> r == Some(0)
    ensures Trim(s) != "" && AllDigits(Trim(s)) ==> r == Some(DigitsValue(Trim(s)))
    ensures r.Some? && Trim(s) != "" ==> AllDigits(Trim(s)[1..])
    ensures Trim(s) != "" && !IsDigit(Trim(s)[0]) && Trim(s)[0] != '-' && Trim(s)[0] != '+' ==> r.None?
  {
    var t := Trim(s);
    if t == "" then Some(0)
    else
      var body := if t[0] == '-' || t[0] == '+' then t[1..] else t;
      if body == [] || !AllDigits(body) then None
      else
        var v: int := DigitsValue(body);
        Some(if t[0] == '-' then -v else v)
  }

  /** `Number(v)`; None is NaN. Objects are NaN (their primitive conversion is not modelled). */
  function ToNumber(v: JsValue): (r: Option<int>)
    ensures v.Num? ==> r == Some(v.n)
    ensures v.NaN? || v.Undefined? || v.Obj? ==> r == None
    ensures v.Null? ==> r == Some(0)
  {
    match v
    case Undefined => None
    case Null => Some(0)
    case Bool(b) => Some(if b then 1 else 0)
    case Num(n) => Some(n)
    case NaN => None
    case Str(s) => StringToNumber(s)
    case Obj(_) => None
  }

  lemma StringToNumberOfDigits(d: string)
    requires d != [] && AllDigits(d)
    ensures StringToNumber(d) == Some(DigitsValue(d))
  {
    assert IsDigit(d[0]) && IsDigit(d[|d| - 1]);
    TrimUnpadded(d);
  }

  lemma StringToNumberAfterMinus(s: string, d: string)
    requires d != [] && AllDigits(d)
    requires s != [] && s[0] == '-' && s[1..] == d
    ensures StringToNumber(s) == Some(-(DigitsValue(d) as int))
  {
    assert s[|s| - 1] == d[|d| - 1];
    TrimUnpadded(s);
  }

  lemma StringToNumberOfDecimal(s: string, n: int)
    requires s == DecimalString(n)
    ensures StringToNumber(s) == Some(n)
  {
    if n < 0 {
      NegativeDecimalParts(n, []);
      assert s + [] == s;
      StringToNumberAfterMinus(s, Digits(-n));
      DigitsRoundTrip(-n);
    } else {
      StringToNumberOfDigits(Digits(n));
      DigitsRoundTrip(n);
    }
  }

  /** `Number` reads back the decimal rendering of any integer. */
  lemma NumberOfDecimal(n: int)
    ensures ToNumber(Str(DecimalString(n))) == Some(n)
  {
    StringToNumberOfDecimal(DecimalString(n), n);
  }

  /** `String(v)` for the primitive values. */
  function ToJsString(v: JsValue): string {
    match v
    case Undefined => "undefined"
    case Null => "null"
    case Bool(b) => if b then "true" else "false"
    case Num(n) => DecimalString(n)
    case NaN => "NaN"
    case Str(s) => s
    case Obj(_) => "[object Object]"
  }
}
