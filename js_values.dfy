/**
 * The part of JavaScript's value model that the slicer's settings pass through:
 * the values a property bag can hold, property reads that may throw, and the
 * number conversions behind the comparisons `v > n`, `n == v` and `v == true`.
 * Numbers are integral here; the widget only stores counts, ids and sizes.
 */
module JsValues {
  import opened Wrappers

  /** A JavaScript value as the host may store it under a property name. */
  datatype Value =
    | Undefined
    | Null
    | Bool(b: bool)
    | Num(n: int)
    | Str(s: string)
    | Obj(props: map<string, Value>)

  /** `v.toString()` throws: `null` and `undefined` have no methods; every other value has one. */
  predicate ToStringThrows(v: Value) {
    v.Undefined? || v.Null?
  }

  /** What a property read on `null` or `undefined` throws, with the name that was read. */
  datatype JsError = TypeError(property: string)

  /**
   * `v[name]`. Reading any property of `null` or `undefined` throws; an absent
   * property of an object reads as `undefined`. Primitives have none of the
   * properties this model reads (`solid`, `color`), so they read as `undefined`.
   */
  function Member(v: Value, name: string): Result<Value, JsError> {
    match v
    case Undefined => Err(TypeError(name))
    case Null => Err(TypeError(name))
    case Obj(props) => Ok(if name in props then props[name] else Undefined)
    case _ => Ok(Undefined)
  }

  /**
   * `v?.[path[0]]?.[path[1]]...`: the optional chain, which stops with
   * `undefined` at the first `null` or `undefined` instead of throwing.
   */
  function OptionalChain(v: Value, path: seq<string>): Value
    decreases |path|
  {
    if path == [] then v
    else if v.Undefined? || v.Null? then Undefined
    else OptionalChain(Member(v, path[0]).value, path[1..])
  }

  /** `v !== undefined ? v : d`: only `undefined` is replaced, `null` is kept. */
  function DefinedOr(v: Value, d: Value): Value {
    if v == Undefined then d else v
  }

  predicate IsDigit(c: char) {
    '0' <= c <= '9'
  }

  /**
   * JavaScript's white space and line terminators (StrWhiteSpaceChar): tab,
   * vertical tab, form feed, space, no-break space, the byte order mark, the
   * other space separators of Unicode, line feed, carriage return and the line
   * and paragraph separators.
   */
  predicate IsWhitespace(c: char) {
    || c == '\t' || c == '\U{B}' || c == '\U{C}' || c == ' ' || c == '\U{A0}' || c == '\U{FEFF}'
    || c == '\U{1680}' || '\U{2000}' <= c <= '\U{200A}' || c == '\U{202F}' || c == '\U{205F}' || c == '\U{3000}'
    || c == '\n' || c == '\r' || c == '\U{2028}' || c == '\U{2029}'
  }

  predicate AllDigits(s: string) {
    forall i :: 0 <= i < |s| ==> IsDigit(s[i])
  }

  /** The number a string of decimal digits denotes. */
  function DigitsValue(s: string): nat
    requires AllDigits(s)
  {
    if s == [] then 0 else DigitsValue(s[..|s| - 1]) * 10 + (s[|s| - 1] as int - '0' as int)
  }

  /**
   * JavaScript's StringToNumber for the forms the model covers: a string of
   * white space (the empty string included) is 0, an optional sign followed by
   * decimal digits is that integer, and anything else is NaN (`None`).
   */
  function StringToNumber(s: string): Option<int> {
    if forall i :: 0 <= i < |s| ==> IsWhitespace(s[i]) then Some(0)
    else if |s| > 1 && (s[0] == '-' || s[0] == '+') && AllDigits(s[1..]) then
      var magnitude: int := DigitsValue(s[1..]);
      Some(if s[0] == '-' then -magnitude else magnitude)
    else if AllDigits(s) then Some(DigitsValue(s))
    else None
  }

  /**
   * ToNumber, with `None` for NaN. An object converts through its string form
   * "[object Object]", which is NaN.
   */
  function ToNumber(v: Value): Option<int> {
    match v
    case Undefined => None
    case Null => Some(0)
    case Bool(b) => Some(if b then 1 else 0)
    case Num(n) => Some(n)
    case Str(s) => StringToNumber(s)
    case Obj(_) => None
  }

  /** `n == v` with loose equality, for a number `n`: `null` equals no number. */
  predicate LooseEqualsNumber(v: Value, n: int) {
    !v.Null? && ToNumber(v) == Some(n)
  }

  /** `v == true`: `true` converts to 1 before the comparison. */
  predicate LooseEqualsTrue(v: Value) {
    LooseEqualsNumber(v, 1)
  }

  /** `v > n`, for a number `n`: false whenever `v` converts to NaN. */
  predicate GreaterThanNumber(v: Value, n: int) {
    ToNumber(v).Some? && ToNumber(v).value > n
  }

  /** The decimal digits of a natural number, most significant first. */
  function Digits(n: nat): (s: string)
    ensures |s| > 0 && AllDigits(s)
  {
    var last := (('0' as int) + n % 10) as char;
    if n < 10 then [last] else Digits(n / 10) + [last]
  }

  /** `Number.prototype.toString()` on an integer. */
  function NumberToString(n: int): string {
    if n < 0 then "-" + Digits(-n) else Digits(n)
  }

  lemma {:induction false} DigitsRoundTrip(n: nat)
    ensures DigitsValue(Digits(n)) == n
  {
    var s := Digits(n);
    if n >= 10 {
      assert s[..|s| - 1] == Digits(n / 10);
      DigitsRoundTrip(n / 10);
    }
  }

  /** Converting an integer to its string and back gives the integer. */
  lemma NumberToStringRoundTrip(n: int)
    ensures StringToNumber(NumberToString(n)) == Some(n)
  {
    var s := NumberToString(n);
    if n < 0 {
      assert s[1..] == Digits(-n);
      assert !IsWhitespace(s[0]);
      DigitsRoundTrip(-n);
    } else {
      assert !IsWhitespace(s[0]) && IsDigit(s[0]);
      DigitsRoundTrip(n);
    }
  }

  /**
   * Distinct integers have distinct strings. A JavaScript object converts a
   * number key with this same conversion, so a map keyed by the integer itself
   * tells apart exactly the keys the object does.
   */
  lemma NumberToStringInjective(a: int, b: int)
    ensures NumberToString(a) == NumberToString(b) ==> a == b
  {
    NumberToStringRoundTrip(a);
    NumberToStringRoundTrip(b);
  }
}
