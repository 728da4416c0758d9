/**
 * The parts of JavaScript's semantics the library's decisions turn on:
 * truthiness, ToString and ToNumber, the loose equality `==`, property reads,
 * and the way underscore's `_.each`, `_.map` and `_.keys` walk a value.
 */
module JsSemantics {
  import opened Wrappers
  import opened JsonValue

  /** `if (v)`: false for undefined, null, false, 0 and the empty string. */
  predicate Truthy(v: Json)
  {
    match v
    case JUndef => false
    case JNull => false
    case JBool(b) => b
    case JNum(n) => n != 0
    case JStr(s) => s != ""
    case _ => true
  }

  /** Objects and arrays: the values `typeof` calls 'object' other than null. */
  predicate IsObject(v: Json)
  {
    v.JArr? || v.JObj?
  }

  /** Reading a property of undefined or null throws a TypeError. */
  predicate Readable(v: Json)
  {
    !v.JUndef? && !v.JNull?
  }

  // ---------------------------------------------------------------- numbers as text

  function DigitChar(d: nat): char
    requires d < 10
  {
    "0123456789"[d]
  }

  predicate IsDecimalDigit(c: char)
  {
    '0' <= c <= '9'
  }

  /** Decimal text of a natural number, without leading zeros. */
  function NatToString(n: nat): (s: string)
    ensures |s| > 0 && forall i :: 0 <= i < |s| ==> IsDecimalDigit(s[i])
    ensures (n < 10) == (|s| == 1)
  {
    if n < 10 then [DigitChar(n)] else NatToString(n / 10) + [DigitChar(n % 10)]
  }

  /** `String(n)` for an integer. */
  function IntToString(n: int): string
  {
    if n < 0 then "-" + NatToString(-n) else NatToString(n)
  }

  /** The value of one digit in the given radix (2, 8, 10 or 16), if it is one. */
  function DigitValue(c: char, radix: nat): Option<nat>
  {
    var d: int :=
      if '0' <= c <= '9' then c as int - '0' as int
      else if 'a' <= c <= 'f' then c as int - 'a' as int + 10
      else if 'A' <= c <= 'F' then c as int - 'A' as int + 10
      else 99;
    if 0 <= d < radix then Some(d) else None
  }

  predicate AllDigits(s: string, radix: nat)
  {
    forall i :: 0 <= i < |s| ==> DigitValue(s[i], radix).Some?
  }

  /** The number a run of digits denotes. */
  function DigitsValue(s: string, radix: nat): nat
    requires AllDigits(s, radix)
  {
    if |s| == 0 then 0
    else DigitsValue(s[..|s| - 1], radix) * radix + DigitValue(s[|s| - 1], radix).value
  }

  lemma DigitCharValue(d: nat)
    requires d < 10
    ensures DigitValue(DigitChar(d), 10) == Some(d)
  {
  }

  /** Reading back the decimal text of a number gives the number. */
  lemma {:induction false} NatToStringRoundTrip(n: nat)
    ensures AllDigits(NatToString(n), 10) && DigitsValue(NatToString(n), 10) == n
  {
    var s := NatToString(n);
    if n < 10 {
      DigitCharValue(n);
    } else {
      NatToStringRoundTrip(n / 10);
      DigitCharValue(n % 10);
      assert s == NatToString(n / 10) + [DigitChar(n % 10)];
      assert s[..|s| - 1] == NatToString(n / 10);
      assert AllDigits(s, 10);
    }
  }

  /** Different numbers have different decimal texts. */
  lemma NatToStringInjective(a: nat, b: nat)
    requires NatToString(a) == NatToString(b)
    ensures a == b
  {
    NatToStringRoundTrip(a);
    NatToStringRoundTrip(b);
  }

  // ---------------------------------------------------------------- ToString

  /** Concatenation of strings with a separator in between (`Array.prototype.join`). */
  function JoinStrings(parts: seq<string>, sep: string): string
  {
    if |parts| == 0 then ""
    else if |parts| == 1 then parts[0]
    else JoinStrings(parts[..|parts| - 1], sep) + sep + parts[|parts| - 1]
  }

  /**
   * ES5 ToString, including ToPrimitive for objects: an array joins its
   * elements with commas (undefined and null elements as the empty string), a
   * plain object becomes "[object Object]".
   */
  function ToStr(v: Json): string
    decreases v
  {
    match v
    case JUndef => "undefined"
    case JNull => "null"
    case JBool(b) => if b then "true" else "false"
    case JNum(n) => IntToString(n)
    case JStr(s) => s
    case JArr(items) =>
      JoinStrings(seq(|items|, i requires 0 <= i < |items| =>
        if items[i].JUndef? || items[i].JNull? then "" else ToStr(items[i])), ",")
    case JObj(_) => "[object Object]"
  }

  /** The key a value names when used as `o[v]`. */
  function PropKey(v: Json): string
  {
    ToStr(v)
  }

  // ---------------------------------------------------------------- whitespace

  /** JavaScript's WhiteSpace and LineTerminator characters (the class `\s`). */
  predicate IsJsSpace(c: char)
  {
    c == ' ' || c == '\t' || c == '\n' || c == '\r' || c == '\U{000B}' || c == '\U{000C}'
    || c == '\U{00A0}' || c == '\U{FEFF}' || c == '\U{1680}' || ('\U{2000}' <= c <= '\U{200A}')
    || c == '\U{2028}' || c == '\U{2029}' || c == '\U{202F}' || c == '\U{205F}' || c == '\U{3000}'
  }

  function TrimStart(s: string): (r: string)
    ensures |r| <= |s|
    ensures |r| > 0 ==> !IsJsSpace(r[0])
  {
    if |s| > 0 && IsJsSpace(s[0]) then TrimStart(s[1..]) else s
  }

  function TrimEnd(s: string): (r: string)
    ensures |r| <= |s|
    ensures |r| > 0 ==> !IsJsSpace(r[|r| - 1])
    ensures |s| > 0 && !IsJsSpace(s[0]) && |r| > 0 ==> r[0] == s[0]
  {
    if |s| > 0 && IsJsSpace(s[|s| - 1]) then TrimEnd(s[..|s| - 1]) else s
  }

  /**
   * `s.replace(/^\s+|\s+$/g, '')`, the same as `s.trim()`: the result is a
   * piece of `s` with no whitespace at either end.
   */
  function Trim(s: string): (r: string)
    ensures |r| <= |s|
    ensures |r| > 0 ==> !IsJsSpace(r[0]) && !IsJsSpace(r[|r| - 1])
    ensures |s| == 0 || (!IsJsSpace(s[0]) && !IsJsSpace(s[|s| - 1])) ==> r == s
  {
    TrimEnd(TrimStart(s))
  }

  // ---------------------------------------------------------------- ToNumber

  /** A JavaScript number (fractions and infinities included; no rounding to doubles). */
  datatype JsNumber = NaN | PosInf | NegInf | Finite(r: real)

  function Pow10(e: nat): (p: nat)
    ensures p > 0
  {
    if e == 0 then 1 else 10 * Pow10(e - 1)
  }

  function Scale(m: nat, e: int): real
  {
    if e >= 0 then (m * Pow10(e)) as real else m as real / Pow10(-e) as real
  }

  /** Number of decimal digits at the start of `s`. */
  function DigitRun(s: string): (k: nat)
    ensures k <= |s| && AllDigits(s[..k], 10)
    ensures k < |s| ==> !IsDecimalDigit(s[k])
  {
    if |s| > 0 && IsDecimalDigit(s[0]) then
      var k := 1 + DigitRun(s[1..]);
      assert s[..k] == [s[0]] + s[1..][..k - 1];
      k
    else 0
  }

  /** The exponent part `[eE][+-]?digits` that ends a decimal literal, or nothing at all. */
  function ExponentPart(s: string): Option<int>
  {
    if s == [] then Some(0)
    else if s[0] != 'e' && s[0] != 'E' then None
    else
      var t := s[1..];
      var neg := |t| > 0 && t[0] == '-';
      var digits := if |t| > 0 && (t[0] == '-' || t[0] == '+') then t[1..] else t;
      if |digits| > 0 && AllDigits(digits, 10) then
        var d: int := DigitsValue(digits, 10);
        Some(if neg then -d else d)
      else None
  }

  /** StrUnsignedDecimalLiteral other than Infinity: `1`, `1.`, `1.5`, `.5`, `15e-1`. */
  function UnsignedDecimal(t: string): JsNumber
  {
    var i := DigitRun(t);
    var intPart := t[..i];
    var hasDot := i < |t| && t[i] == '.';
    var afterDot := if hasDot then t[i + 1..] else "";
    var j := DigitRun(afterDot);
    var frac := afterDot[..j];
    var rest := if hasDot then afterDot[j..] else t[i..];
    var e := ExponentPart(rest);
    if |intPart| + |frac| == 0 || e.None? then NaN
    else
      assert AllDigits(intPart + frac, 10);
      Finite(Scale(DigitsValue(intPart + frac, 10), e.value - |frac|))
  }

  function Negate(x: JsNumber): JsNumber
  {
    match x
    case Finite(r) => Finite(-r)
    case PosInf => NegInf
    case NegInf => PosInf
    case NaN => NaN
  }

  function RadixOf(c: char): nat
  {
    if c == 'x' || c == 'X' then 16
    else if c == 'o' || c == 'O' then 8
    else if c == 'b' || c == 'B' then 2
    else 0
  }

  /** ES ToNumber applied to a string (StringNumericLiteral). */
  function StringToNumber(s: string): JsNumber
  {
    var t := Trim(s);
    if t == "" then Finite(0.0)
    else if t == "Infinity" || t == "+Infinity" then PosInf
    else if t == "-Infinity" then NegInf
    else if |t| > 2 && t[0] == '0' && RadixOf(t[1]) != 0 then
      if AllDigits(t[2..], RadixOf(t[1])) then Finite(DigitsValue(t[2..], RadixOf(t[1])) as real) else NaN
    else if t[0] == '-' then Negate(UnsignedDecimal(t[1..]))
    else if t[0] == '+' then UnsignedDecimal(t[1..])
    else UnsignedDecimal(t)
  }

  /** ES ToNumber; objects go through their string form. */
  function ToNumber(v: Json): JsNumber
  {
    match v
    case JUndef => NaN
    case JNull => Finite(0.0)
    case JBool(b) => Finite(if b then 1.0 else 0.0)
    case JNum(n) => Finite(n as real)
    case JStr(s) => StringToNumber(s)
    case _ => StringToNumber(ToStr(v))
  }

  /** The global `isNaN(v)`, which converts its argument first. */
  predicate IsNaN(v: Json)
  {
    ToNumber(v) == NaN
  }

  /** A word such as 'soon', starting with a lower-case letter and not ending in whitespace, is not a number. */
  lemma WordIsNaN(s: string)
    requires |s| > 0 && 'a' <= s[0] <= 'z' && !IsJsSpace(s[|s| - 1])
    ensures StringToNumber(s) == NaN
  {
    assert !IsJsSpace(s[0]);
    assert Trim(s) == s;
    assert s != "Infinity" && s != "+Infinity" && s != "-Infinity" by {
      assert s[0] != 'I' && s[0] != '+' && s[0] != '-';
    }
    assert s[0] != '0' && s[0] != '-' && s[0] != '+';
    NoLeadingDigitIsNaN(s);
  }

  /** Text that starts with neither a digit nor a dot is no decimal literal. */
  lemma NoLeadingDigitIsNaN(t: string)
    requires |t| > 0 && !IsDecimalDigit(t[0]) && t[0] != '.'
    ensures UnsignedDecimal(t) == NaN
  {
    assert DigitRun(t) == 0;
    assert DigitRun("") == 0;
  }

  /** The comparison `v > 0`. */
  predicate GreaterThanZero(v: Json)
  {
    match ToNumber(v)
    case Finite(r) => r > 0.0
    case PosInf => true
    case _ => false
  }

  // ---------------------------------------------------------------- loose equality

  function CoercionRank(v: Json): nat
  {
    match v
    case JBool(_) => 2
    case JArr(_) => 1
    case JObj(_) => 1
    case _ => 0
  }

  /**
   * The abstract equality `a == b` (ES5 11.9.3).  Two objects are equal only
   * when they are the same object; every pair of objects this library compares
   * comes from different copies, so that case is false here.
   */
  predicate LooseEq(a: Json, b: Json)
    decreases CoercionRank(a) + CoercionRank(b)
  {
    if !Readable(a) && !Readable(b) then true
    else if !Readable(a) || !Readable(b) then false
    else if a.JBool? && b.JBool? then a.b == b.b
    else if a.JNum? && b.JNum? then a.n == b.n
    else if a.JStr? && b.JStr? then a.s == b.s
    else if IsObject(a) && IsObject(b) then false
    else if a.JNum? && b.JStr? then StringToNumber(b.s) == Finite(a.n as real)
    else if a.JStr? && b.JNum? then StringToNumber(a.s) == Finite(b.n as real)
    else if a.JBool? then LooseEq(JNum(if a.b then 1 else 0), b)
    else if b.JBool? then LooseEq(a, JNum(if b.b then 1 else 0))
    else if IsObject(a) then LooseEq(JStr(ToStr(a)), b)
    else LooseEq(a, JStr(ToStr(b)))
  }

  /** Between two strings, `==` compares the text. */
  lemma LooseEqStrings(a: Json, b: Json)
    requires a.JStr? && b.JStr?
    ensures LooseEq(a, b) == (a == b)
  {
  }

  /** `==` does not depend on the order of its operands. */
  lemma {:induction false} LooseEqSymmetric(a: Json, b: Json)
    ensures LooseEq(a, b) == LooseEq(b, a)
    decreases CoercionRank(a) + CoercionRank(b)
  {
    if !Readable(a) || !Readable(b) {
    } else if a.JBool? && !b.JBool? {
      LooseEqSymmetric(JNum(if a.b then 1 else 0), b);
    } else if b.JBool? && !a.JBool? {
      LooseEqSymmetric(a, JNum(if b.b then 1 else 0));
    } else if IsObject(a) && (b.JStr? || b.JNum?) {
      LooseEqSymmetric(JStr(ToStr(a)), b);
    } else if IsObject(b) && (a.JStr? || a.JNum?) {
      LooseEqSymmetric(a, JStr(ToStr(b)));
    }
  }

  // ---------------------------------------------------------------- property access

  /** A canonical array index: "0" or decimal digits without a leading zero. */
  function ArrayIndex(k: string): Option<nat>
  {
    if |k| > 0 && AllDigits(k, 10) && (k == "0" || k[0] != '0') then Some(DigitsValue(k, 10))
    else None
  }

  /** The property read `v[k]` on a value that is not undefined or null. */
  function Get(v: Json, k: string): Json
  {
    match v
    case JObj(m) => Lookup(m, k)
    case JArr(items) =>
      if k == "length" then JNum(|items|)
      else if ArrayIndex(k).Some? && ArrayIndex(k).value < |items| then items[ArrayIndex(k).value]
      else JUndef
    case JStr(s) =>
      if k == "length" then JNum(|s|)
      else if ArrayIndex(k).Some? && ArrayIndex(k).value < |s| then JStr([s[ArrayIndex(k).value]])
      else JUndef
    case _ => JUndef
  }

  /** `_.has(v, k)` (own property); for objects also the operator `k in v`. */
  predicate HasOwn(v: Json, k: string)
  {
    match v
    case JObj(m) => k in Keys(m)
    case JArr(items) => k == "length" || (ArrayIndex(k).Some? && ArrayIndex(k).value < |items|)
    case JStr(s) => k == "length" || (ArrayIndex(k).Some? && ArrayIndex(k).value < |s|)
    case _ => false
  }

  /** `_.keys(v)`: own keys of an object or array, nothing for any other value. */
  function KeysOf(v: Json): seq<string>
  {
    match v
    case JObj(m) => Keys(m)
    case JArr(items) => seq(|items|, i requires 0 <= i < |items| => NatToString(i))
    case _ => []
  }

  /** `_.extend({}, v)` (also what `_.defaults` copies): the own properties of an object or an array, nothing for any other value. */
  function ExtendCopy(v: Json): (m: Members)
    ensures Keys(m) == KeysOf(v)
  {
    match v
    case JObj(members) => members
    case JArr(items) => seq(|items|, i requires 0 <= i < |items| => (NatToString(i), items[i]))
    case _ => []
  }

  /** underscore's `isArrayLike`: a numeric `length` between 0 and 2^53 - 1. */
  predicate IsArrayLike(v: Json)
  {
    Readable(v) && Get(v, "length").JNum? && 0 <= Get(v, "length").n <= 0x1F_FFFF_FFFF_FFFF
  }

  /**
   * The (key, value) pairs `_.each` and `_.map` visit, in order: indices of an
   * array-like value, otherwise the own keys of an object, otherwise nothing.
   */
  function Entries(v: Json): (es: seq<(Json, Json)>)
  {
    match v
    case JArr(items) => seq(|items|, i requires 0 <= i < |items| => (JNum(i), items[i]))
    case JStr(s) => seq(|s|, i requires 0 <= i < |s| => (JNum(i), JStr([s[i]])))
    case JObj(m) =>
      if IsArrayLike(v) then
        var n := Get(v, "length").n;
        seq(n, i requires 0 <= i < n => (JNum(i), Lookup(m, NatToString(i))))
      else seq(|m|, i requires 0 <= i < |m| => (JStr(m[i].0), m[i].1))
    case _ => []
  }

  /** The values `_.each` and `_.map` visit, in order. */
  function Values(v: Json): (vs: seq<Json>)
    ensures |vs| == |Entries(v)|
    ensures forall i :: 0 <= i < |vs| ==> vs[i] == Entries(v)[i].1
  {
    var es := Entries(v);
    seq(|es|, i requires 0 <= i < |es| => es[i].1)
  }

  /** The values of an array are its elements. */
  lemma ValuesOfArray(items: seq<Json>)
    ensures Values(JArr(items)) == items
  {
  }

  /** The text of a positive number does not start with a zero. */
  lemma {:induction false} NatToStringLeading(n: nat)
    requires n > 0
    ensures NatToString(n)[0] != '0'
  {
    if n >= 10 {
      NatToStringLeading(n / 10);
    }
  }

  /** The text of a number reads back as that array index. */
  lemma NatToStringIndex(n: nat)
    ensures ArrayIndex(NatToString(n)) == Some(n)
  {
    NatToStringRoundTrip(n);
    if n > 0 {
      NatToStringLeading(n);
    }
  }
}
