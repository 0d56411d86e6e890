/** The few JavaScript value semantics the handler, the setup loop and the
    configuration defaults rely on: truthiness, `||` defaults, loose
    equality against a literal, `Number(...)`, `parseInt(...)` and template
    stringification. Numbers are integers throughout. */
module Js {

  datatype Option<T> = None | Some(value: T)

  /** A JavaScript primitive as it appears in a parsed JSON snapshot, in a
      device configuration object, or as a value handed over by the
      accessory framework. */
  datatype JsValue = Undefined | Null | Bool(b: bool) | Num(n: int) | Str(s: string)

  /** A plain JavaScript object; a missing property reads as `undefined`. */
  type JsObject = map<string, JsValue>

  function Get(o: JsObject, key: string): JsValue
  {
    if key in o then o[key] else Undefined
  }

  /** `if (v)`: the falsy primitives are undefined, null, false, 0 and "". */
  predicate Truthy(v: JsValue)
  {
    match v
    case Undefined => false
    case Null => false
    case Bool(b) => b
    case Num(n) => n != 0
    case Str(s) => s != ""
  }

  /** `a || b` */
  function Or(a: JsValue, b: JsValue): JsValue
  {
    if Truthy(a) then a else b
  }

  // ---------------------------------------------------------------------
  // Decimal digits

  predicate IsDigit(c: char)
  {
    '0' <= c <= '9'
  }

  predicate AllDigits(s: string)
  {
    forall i :: 0 <= i < |s| ==> IsDigit(s[i])
  }

  function DigitChar(d: nat): char
    requires d < 10
  {
    "0123456789"[d]
  }

  /** The value of a decimal digit character. */
  function DigitValue(c: char): int
  {
    (c as int) - ('0' as int)
  }

  /** The value of a string of decimal digits, most significant first
      (used only on strings of digits). */
  function DecimalValue(s: string): int
  {
    if s == [] then 0 else DecimalValue(s[..|s| - 1]) * 10 + DigitValue(s[|s| - 1])
  }

  /** The canonical decimal spelling of a natural number. */
  function NatToString(n: nat): (s: string)
    ensures |s| > 0
  {
    if n < 10 then [DigitChar(n)] else NatToString(n / 10) + [DigitChar(n % 10)]
  }

  /** `${n}` for an integer. */
  function IntToString(n: int): string
  {
    if n < 0 then "-" + NatToString(-n) else NatToString(n)
  }

  /** `${v}`: template-literal stringification. */
  function ToJsString(v: JsValue): string
  {
    match v
    case Undefined => "undefined"
    case Null => "null"
    case Bool(b) => if b then "true" else "false"
    case Num(n) => IntToString(n)
    case Str(s) => s
  }

  // ---------------------------------------------------------------------
  // Conversions to number; None stands for NaN

  /** The ASCII white space characters; the other Unicode space characters
      that JavaScript also trims are not modelled. */
  predicate IsSpace(c: char)
  {
    c == ' ' || c == '\t' || c == '\n' || c == '\r' || c == '\U{B}' || c == '\U{C}'
  }

  function TrimStart(s: string): string
  {
    if s != [] && IsSpace(s[0]) then TrimStart(s[1..]) else s
  }

  function TrimEnd(s: string): string
  {
    if s != [] && IsSpace(s[|s| - 1]) then TrimEnd(s[..|s| - 1]) else s
  }

  /** `Number(s)` for the integer literals this model knows: surrounding
      white space is ignored, the empty string is 0, an optional sign is
      followed by decimal digits; anything else is NaN. */
  function StrToNumber(s: string): Option<int>
  {
    var t := TrimEnd(TrimStart(s));
    if t == "" then Some(0)
    else if t[0] == '-' && |t| > 1 && AllDigits(t[1..]) then Some(-DecimalValue(t[1..]))
    else if t[0] == '+' && |t| > 1 && AllDigits(t[1..]) then Some(DecimalValue(t[1..]))
    else if AllDigits(t) then Some(DecimalValue(t))
    else None
  }

  /** `Number(v)`, the conversion behind arithmetic and `<`, `>`. */
  function ToNumber(v: JsValue): Option<int>
  {
    match v
    case Undefined => None
    case Null => Some(0)
    case Bool(b) => Some(if b then 1 else 0)
    case Num(n) => Some(n)
    case Str(s) => StrToNumber(s)
  }

  /** The longest prefix of `s` made of decimal digits. */
  function DigitPrefix(s: string): string
  {
    if s != [] && IsDigit(s[0]) then [s[0]] + DigitPrefix(s[1..]) else []
  }

  /** The value of the leading digits of `s`, or None when there are none. */
  function LeadingNumber(s: string): Option<int>
  {
    var digits := DigitPrefix(s);
    if digits == [] then None else Some(DecimalValue(digits))
  }

  /** `parseInt(s)` without a radix, for decimal input: leading white space
      is skipped, then an optional sign, then as many decimal digits as
      there are. A `0x` prefix, which JavaScript reads as hexadecimal, is not
      modelled. */
  function ParseIntString(s: string): Option<int>
  {
    var t := TrimStart(s);
    if t != [] && t[0] == '-' then
      match LeadingNumber(t[1..])
      case None => None
      case Some(n) => Some(-n)
    else if t != [] && t[0] == '+' then
      match LeadingNumber(t[1..])
      case None => None
      case Some(n) => Some(n)
    else
      match LeadingNumber(t)
      case None => None
      case Some(n) => Some(n)
  }

  /** `parseInt(v)`: the argument is stringified first. */
  function ParseInt(v: JsValue): Option<int>
  {
    ParseIntString(ToJsString(v))
  }

  // ---------------------------------------------------------------------
  // Comparisons

  /** `v == k` for a number literal `k`: null and undefined equal no number;
      booleans and strings are converted to a number first. */
  predicate LooseEqualsNumber(v: JsValue, k: int)
  {
    !v.Undefined? && !v.Null? && ToNumber(v) == Some(k)
  }

  /** `v == lit` for a string literal `lit`: a string compares by content;
      a number or a boolean compares with the number the literal spells. */
  predicate LooseEqualsString(v: JsValue, lit: string)
  {
    match v
    case Undefined => false
    case Null => false
    case Str(s) => s == lit
    case _ => StrToNumber(lit) == ToNumber(v)
  }

  /** `v > k` for a number literal `k` (false when `v` is NaN). */
  predicate Greater(v: JsValue, k: int)
  {
    ToNumber(v).Some? && ToNumber(v).value > k
  }

  /** `v <= k` for a number literal `k` (false when `v` is NaN). */
  predicate AtMost(v: JsValue, k: int)
  {
    ToNumber(v).Some? && ToNumber(v).value <= k
  }

  // ---------------------------------------------------------------------
  // Lemmas

  /** The spelling is made of digits, without a leading zero. */
  lemma {:induction false} NatToStringDigits(n: nat)
    ensures AllDigits(NatToString(n))
    ensures |NatToString(n)| > 1 ==> NatToString(n)[0] != '0'
  {
    if n >= 10 {
      NatToStringDigits(n / 10);
      var s := NatToString(n);
      assert s == NatToString(n / 10) + [DigitChar(n % 10)];
    }
  }

  /** Reading back the decimal spelling of a natural number gives it back. */
  lemma {:induction false} DecimalValueOfNatToString(n: nat)
    ensures DecimalValue(NatToString(n)) == n
  {
    if n >= 10 {
      var s := NatToString(n);
      assert s[..|s| - 1] == NatToString(n / 10);
      DecimalValueOfNatToString(n / 10);
    }
  }

  /** The decimal spellings the handler's commands contain. */
  lemma SmallDecimals()
    ensures IntToString(0) == "0" && IntToString(1) == "1" && IntToString(2) == "2" && IntToString(3) == "3"
    ensures IntToString(40) == "40" && IntToString(50) == "50" && IntToString(60) == "60" && IntToString(70) == "70"
    ensures IntToString(100) == "100"
  {
    assert NatToString(40) == NatToString(4) + [DigitChar(0)];
    assert NatToString(50) == NatToString(5) + [DigitChar(0)];
    assert NatToString(60) == NatToString(6) + [DigitChar(0)];
    assert NatToString(70) == NatToString(7) + [DigitChar(0)];
    assert NatToString(10) == NatToString(1) + [DigitChar(0)];
    assert NatToString(100) == NatToString(10) + [DigitChar(0)];
  }

  lemma TrimStartFree(s: string)
    requires s == [] || !IsSpace(s[0])
    ensures TrimStart(s) == s
  {
  }

  lemma TrimEndFree(s: string)
    requires s == [] || !IsSpace(s[|s| - 1])
    ensures TrimEnd(s) == s
  {
  }

  /** `Number(`${n}`) === n` for every integer. */
  lemma NumberOfIntToString(n: int)
    ensures StrToNumber(IntToString(n)) == Some(n)
  {
    var s := IntToString(n);
    if n < 0 {
      NegativeSpelling(n);
    } else {
      NaturalSpelling(n);
    }
    TrimStartFree(s);
    TrimEndFree(s);
  }

  /** `parseInt` reads the longest run of digits: the prefix it takes is
      followed by a character that is not a digit, or by nothing. */
  lemma {:induction false} DigitPrefixIsLongest(s: string)
    ensures DigitPrefix(s) <= s && AllDigits(DigitPrefix(s))
    ensures |DigitPrefix(s)| < |s| ==> !IsDigit(s[|DigitPrefix(s)|])
  {
    if s != [] && IsDigit(s[0]) {
      DigitPrefixIsLongest(s[1..]);
    }
  }

  lemma {:induction false} DigitPrefixOfDigits(s: string)
    requires AllDigits(s)
    ensures DigitPrefix(s) == s
  {
    if s != [] {
      DigitPrefixOfDigits(s[1..]);
    }
  }

  lemma ParseIntOfDigits(d: string)
    requires AllDigits(d) && d != []
    ensures ParseIntString(d) == Some(DecimalValue(d))
  {
    assert IsDigit(d[0]);
    TrimStartFree(d);
    LeadingNumberOfDigits(d);
  }

  lemma ParseIntOfNegativeDigits(s: string)
    requires |s| > 1 && s[0] == '-' && AllDigits(s[1..])
    ensures ParseIntString(s) == Some(-DecimalValue(s[1..]))
  {
    ParseIntOfMinus(s);
    LeadingNumberOfDigits(s[1..]);
  }

  lemma ParseIntOfMinus(s: string)
    requires s != [] && s[0] == '-'
    ensures ParseIntString(s) == match LeadingNumber(s[1..]) case None => None case Some(n) => Some(-n)
  {
    TrimStartFree(s);
  }

  lemma LeadingNumberOfDigits(d: string)
    requires AllDigits(d) && d != []
    ensures LeadingNumber(d) == Some(DecimalValue(d))
  {
    DigitPrefixOfDigits(d);
  }

  /** `parseInt(`${n}`) === n` for every integer. */
  lemma ParseIntOfIntToString(n: int)
    ensures ParseIntString(IntToString(n)) == Some(n)
  {
    if n < 0 {
      ParseIntOfNegative(n);
    } else {
      ParseIntOfNatural(n);
    }
  }

  lemma ParseIntOfNegative(n: int)
    requires n < 0
    ensures ParseIntString(IntToString(n)) == Some(n)
  {
    NegativeSpelling(n);
    ParseIntOfNegativeDigits(IntToString(n));
  }

  lemma ParseIntOfNatural(n: nat)
    ensures ParseIntString(IntToString(n)) == Some(n)
  {
    NaturalSpelling(n);
    ParseIntOfDigits(IntToString(n));
  }

  /** The spelling of a negative number is a minus sign and the digits of
      its magnitude. */
  lemma NegativeSpelling(n: int)
    requires n < 0
    ensures var s := IntToString(n);
      |s| > 1 && s[0] == '-' && AllDigits(s[1..]) && DecimalValue(s[1..]) == -n && IsDigit(s[|s| - 1])
  {
    var d := NatToString(-n);
    NatToStringDigits(-n);
    DecimalValueOfNatToString(-n);
    MinusDigits(d);
  }

  lemma MinusDigits(d: string)
    requires d != [] && AllDigits(d)
    ensures var s := "-" + d;
      |s| > 1 && s[0] == '-' && s[1..] == d && IsDigit(s[|s| - 1])
  {
    var s := "-" + d;
    assert s[1..] == d;
    assert s[|s| - 1] == d[|d| - 1];
  }

  /** The spelling of a natural number is its digits. */
  lemma NaturalSpelling(n: int)
    requires n >= 0
    ensures var s := IntToString(n);
      |s| > 0 && AllDigits(s) && DecimalValue(s) == n
  {
    NatToStringDigits(n);
    DecimalValueOfNatToString(n);
  }

  /** So `parseInt` reads a number back from its own stringification. */
  lemma ParseIntOfNumber(n: int)
    ensures ParseInt(Num(n)) == Some(n)
  {
    ParseIntOfIntToString(n);
  }

  /** A string literal with no digits loosely equals only itself: no number
      or boolean is `==` to it. */
  lemma LooseEqualsNonNumericString(v: JsValue, lit: string)
    requires lit != [] && forall i :: 0 <= i < |lit| ==> !IsDigit(lit[i]) && !IsSpace(lit[i])
    ensures LooseEqualsString(v, lit) <==> v == Str(lit)
  {
    TrimSpaceFree(lit);
    assert !IsDigit(lit[0]);
    if |lit| > 1 {
      assert !IsDigit(lit[1]);
    }
  }

  lemma TrimSpaceFree(s: string)
    requires s != [] && !IsSpace(s[0]) && !IsSpace(s[|s| - 1])
    ensures TrimEnd(TrimStart(s)) == s
  {
  }
}
