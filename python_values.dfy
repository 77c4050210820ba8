/**
 * The few pieces of Python's object model that the metrics code relies on:
 * the values a caller may pass in, what `str()` makes of them, what `if x:`
 * makes of them, and the exception the producer API raises.
 */
module PythonValues {

  /** A value handed to the metrics code: an event group or name, or the value
      of an event property. Any other object is an `ObjectValue` carrying its
      own truthiness and the text its `__str__` returns. */
  datatype Value =
    | NoneValue
    | BoolValue(b: bool)
    | IntValue(i: int)
    | StrValue(s: string)
    | ObjectValue(truthy: bool, text: string)

  /** The `properties` argument of the event constructor: either a plain
      `dict` (keys are strings here) or any other value. */
  datatype PropertiesArg =
    | DictArg(entries: map<string, Value>)
    | PlainArg(v: Value)

  /** A value that may be Python's `None`. */
  datatype Option<+T> = None | Some(value: T)

  /** The exception raised at the producer API boundary. */
  datatype PyError = TypeError(message: string)

  /** How a call that returns nothing ended: normally, or by raising. */
  datatype Outcome = Returned | Raised(error: PyError)

  /** Either a value or the exception that was raised instead. */
  datatype Result<+T> = Ok(value: T) | Err(error: PyError)

  /** Python's truthiness of a value (`if v:`). */
  predicate Truthy(v: Value): (ok: bool)
    ensures !ok <==> v in {NoneValue, BoolValue(false), IntValue(0), StrValue("")} || (v.ObjectValue? && !v.truthy)
  {
    match v
    case NoneValue => false
    case BoolValue(b) => b
    case IntValue(i) => i != 0
    case StrValue(s) => s != ""
    case ObjectValue(t, _) => t
  }

  /** Python's truthiness of the `properties` argument: a dict is truthy
      exactly when it has an entry. */
  predicate PropertiesTruthy(p: PropertiesArg): (ok: bool)
    ensures p.DictArg? ==> (ok <==> |p.entries| > 0)
    ensures p.PlainArg? ==> (ok <==> Truthy(p.v))
  {
    match p
    case DictArg(m) => m != map[]
    case PlainArg(v) => Truthy(v)
  }

  predicate IsDigit(c: char) {
    '0' <= c <= '9'
  }

  predicate AllDigits(s: string) {
    forall i :: 0 <= i < |s| ==> IsDigit(s[i])
  }

  function DigitChar(d: nat): (c: char)
    requires d < 10
    ensures IsDigit(c) && c as int - '0' as int == d
  {
    ('0' as int + d) as char
  }

  /** The decimal digits of `n`, most significant first, as `str()` prints them. */
  function NatToDecimal(n: nat): (s: string)
    ensures |s| > 0 && AllDigits(s)
    ensures s[0] == '0' ==> n == 0 && s == "0"
    decreases n
  {
    if n < 10 then [DigitChar(n)] else NatToDecimal(n / 10) + [DigitChar(n % 10)]
  }

  /** The number a string of decimal digits denotes. */
  function DecimalValue(s: string): nat
    requires AllDigits(s)
    decreases |s|
  {
    if s == [] then 0
    else DecimalValue(s[..|s| - 1]) * 10 + (s[|s| - 1] as int - '0' as int)
  }

  /** Printing a natural number in decimal and reading it back gives the number. */
  lemma {:induction false} DecimalRoundTrip(n: nat)
    ensures DecimalValue(NatToDecimal(n)) == n
    decreases n
  {
    if n >= 10 {
      DecimalRoundTrip(n / 10);
      var s := NatToDecimal(n);
      assert s[..|s| - 1] == NatToDecimal(n / 10);
    }
  }

  /** Python's `str()` of a value. */
  function Str(v: Value): (s: string)
    ensures v.StrValue? ==> s == v.s
    ensures v.IntValue? && v.i >= 0 ==>
      |s| > 0 && AllDigits(s) && DecimalValue(s) == v.i && (s[0] == '0' ==> s == "0")
    ensures v.IntValue? && v.i < 0 ==>
      |s| > 1 && s[0] == '-' && s[1] != '0' && AllDigits(s[1..]) && DecimalValue(s[1..]) == -v.i
  {
    match v
    case NoneValue => "None"
    case BoolValue(b) => if b then "True" else "False"
    case IntValue(i) =>
      DecimalRoundTrip(if i < 0 then -i else i);
      if i < 0 then "-" + NatToDecimal(-i) else NatToDecimal(i)
    case StrValue(s) => s
    case ObjectValue(_, text) => text
  }
}
