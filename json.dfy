/**
 * The JSON values that reach the control panel through `request.json` and the
 * configuration file, with the two Python conversions `update_config` applies
 * to them: truthiness (`bool(v)`) and `int(v)`.
 */
module Json {
  import opened Wrappers
  import opened PyText

  datatype JsonValue =
    | JNull
    | JBool(b: bool)
    | JInt(i: int)
    | JFloat(r: real)
    /** The `NaN`, `Infinity` and `-Infinity` tokens Python's JSON reader accepts. */
    | JNaN
    | JInfinity(negative: bool)
    | JStr(s: string)
    | JArray(items: seq<JsonValue>)
    | JObject(fields: map<string, JsonValue>)

  /** Python truthiness: `None`, `False`, zero and empty containers are false. */
  predicate Truthy(v: JsonValue) {
    match v
    case JNull => false
    case JBool(b) => b
    case JInt(i) => i != 0
    case JFloat(r) => r != 0.0
    case JNaN => true
    case JInfinity(_) => true
    case JStr(s) => s != []
    case JArray(a) => a != []
    case JObject(m) => m != map[]
  }

  /**
   * The digit part of an integer literal that `int()` accepts: digits, with
   * single underscores allowed between two digits.
   */
  predicate IsDigitText(d: string) {
    && d != []
    && IsDigit(d[0])
    && IsDigit(d[|d| - 1])
    && forall i :: 0 <= i < |d| ==> IsDigit(d[i]) || (d[i] == '_' && i + 1 < |d| && IsDigit(d[i + 1]))
  }

  function DigitValue(c: char): nat
    requires IsDigit(c)
  {
    assert '0' as int <= c as int;
    c as int - '0' as int
  }

  /** The number the digits of `d` spell, underscores ignored. */
  function DigitsValue(d: string): nat {
    if d == [] then 0
    else if IsDigit(d[|d| - 1]) then DigitsValue(d[..|d| - 1]) * 10 + DigitValue(d[|d| - 1])
    else DigitsValue(d[..|d| - 1])
  }

  /** `int(t)` for a string that has already been stripped: an optional sign, then digits. */
  function ParseIntText(t: string): Option<int> {
    if t != [] && (t[0] == '+' || t[0] == '-') then
      var magnitude: int := DigitsValue(t[1..]);
      if IsDigitText(t[1..]) then Some(if t[0] == '-' then -magnitude else magnitude)
      else None
    else if IsDigitText(t) then Some(DigitsValue(t) as int)
    else None
  }

  /**
   * `int(v)`: `None` stands for the `TypeError`/`ValueError` that Python raises.
   * Booleans count as 0 and 1, a float is truncated toward zero, a string is
   * parsed after stripping whitespace, and null, lists and objects are refused,
   * and so are NaN (`ValueError`) and the infinities (`OverflowError`).
   */
  function PyInt(v: JsonValue): (r: Option<int>)
    ensures v.JInt? ==> r == Some(v.i)
    ensures v.JBool? ==> r == Some(if v.b then 1 else 0)
    ensures v.JNull? || v.JArray? || v.JObject? || v.JNaN? || v.JInfinity? ==> r == None
    ensures v.JFloat? && v.r >= 0.0 ==> r.Some? && 0 <= r.value && r.value as real <= v.r < r.value as real + 1.0
    ensures v.JFloat? && v.r < 0.0 ==> r.Some? && r.value <= 0 && r.value as real - 1.0 < v.r <= r.value as real
  {
    match v
    case JNull => None
    case JBool(b) => Some(if b then 1 else 0)
    case JInt(i) => Some(i)
    case JFloat(x) => Some(if x >= 0.0 then x.Floor else -((-x).Floor))
    case JNaN => None
    case JInfinity(_) => None
    case JStr(s) => ParseIntText(Strip(s))
    case JArray(_) => None
    case JObject(_) => None
  }

  lemma {:induction false} DigitsValueOfNatString(n: nat)
    ensures DigitsValue(NatToString(n)) == n
  {
    var d := NatToString(n);
    if n >= 10 {
      DigitsValueOfNatString(n / 10);
      assert d[..|d| - 1] == NatToString(n / 10);
    }
  }

  /** `int(str(n)) == n`: the decimal text the log messages print reads back as the same number. */
  lemma PyIntOfNatString(n: nat)
    ensures PyInt(JStr(NatToString(n))) == Some(n)
  {
    var d := NatToString(n);
    StripNatString(n);
    ParseNatString(n);
    assert PyInt(JStr(d)) == ParseIntText(Strip(d));
  }

  lemma StripNatString(n: nat)
    ensures Strip(NatToString(n)) == NatToString(n)
  {
    var d := NatToString(n);
    WordNotSpace(d[0]);
    WordNotSpace(d[|d| - 1]);
    StripStripped(d);
  }

  lemma ParseNatString(n: nat)
    ensures ParseIntText(NatToString(n)) == Some(n)
  {
    var d := NatToString(n);
    assert IsDigitText(d);
    assert d[0] != '+' && d[0] != '-';
    DigitsValueOfNatString(n);
  }

  /** `int()` ignores whitespace around a string, as Python's does. */
  lemma PyIntPadded(a: string, s: string, b: string)
    requires AllSpace(a) && AllSpace(b)
    ensures PyInt(JStr(a + s + b)) == PyInt(JStr(s))
  {
    StripPadded(a, s, b);
  }
}
