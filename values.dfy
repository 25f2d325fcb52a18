/** Values that travel inside actions, and the JavaScript conversions the
    ducks helpers rely on: reading a missing property, and turning a value
    into a property key. */
module Values {

  datatype Option<T> = None | Some(value: T)

  /** The integers a JavaScript number holds exactly (`Number.isSafeInteger`):
      magnitude at most 2^53 - 1, well below the 10^21 from which `String(n)`
      switches to exponent notation. */
  type SafeInt = n: int | -0x1F_FFFF_FFFF_FFFF <= n <= 0x1F_FFFF_FFFF_FFFF

  /** A JavaScript value as it can appear in an action field. Objects other
      than arrays are not needed by the helpers and are left out; numbers are
      the safe integers. */
  datatype Value =
    | Undefined
    | Null
    | Bool(b: bool)
    | Num(n: SafeInt)
    | Str(s: string)
    | List(items: seq<Value>)

  /** An action: a plain object from field names to values. A field that was
      assigned `undefined` is still a key of the object. */
  type Action = map<string, Value>

  /** The one field name whose assignment `obj[name] = v` creates no own
      property: it goes to the prototype setter of `Object.prototype`. */
  const ProtoKey := "__proto__"

  /** `obj[key]`: a property the object does not have reads as `undefined`. */
  function Get(action: Action, key: string): Value
  {
    if key in action then action[key] else Undefined
  }

  function DigitChar(d: nat): char
    requires d < 10
  {
    ('0' as int + d) as char
  }

  /** Decimal notation of a natural number without leading zeros, which is
      how `String(n)` prints a safe integer. */
  function NatToString(n: nat): (s: string)
    ensures |s| > 0
    ensures forall i :: 0 <= i < |s| ==> '0' <= s[i] <= '9'
    decreases n
  {
    if n < 10 then [DigitChar(n)] else NatToString(n / 10) + [DigitChar(n % 10)]
  }

  predicate AllDigits(s: string)
  {
    forall i :: 0 <= i < |s| ==> '0' <= s[i] <= '9'
  }

  /** The number a string of decimal digits denotes. */
  function DecimalValue(s: string): nat
    requires AllDigits(s)
    decreases |s|
  {
    if |s| == 0 then 0
    else DecimalValue(s[..|s| - 1]) * 10 + (s[|s| - 1] as int - '0' as int)
  }

  /** Reading the decimal notation back gives the number. */
  lemma {:induction false} DecimalRoundTrip(n: nat)
    ensures DecimalValue(NatToString(n)) == n
    decreases n
  {
    if n >= 10 {
      var s := NatToString(n);
      assert s[..|s| - 1] == NatToString(n / 10);
      DecimalRoundTrip(n / 10);
    }
  }

  function IntToString(i: int): string
  {
    if i < 0 then "-" + NatToString(-i) else NatToString(i)
  }

  /** A negative number's notation is a minus sign before the digits of its
      magnitude; a non-negative number's starts with a digit. */
  lemma IntToStringSign(i: int)
    ensures |IntToString(i)| > 0
    ensures i < 0 ==> IntToString(i)[0] == '-' && IntToString(i)[1..] == NatToString(-i)
    ensures i >= 0 ==> IntToString(i)[0] != '-' && IntToString(i) == NatToString(i)
  {
  }

  /** Two integers have the same decimal notation only if they are equal. */
  lemma IntToStringInjective(a: int, b: int)
    requires IntToString(a) == IntToString(b)
    ensures a == b
  {
    IntToStringSign(a);
    IntToStringSign(b);
    if a < 0 {
      DecimalRoundTrip(-a);
      DecimalRoundTrip(-b);
    } else {
      DecimalRoundTrip(a);
      DecimalRoundTrip(b);
    }
  }

  /** `parts.join(",")`. */
  function JoinWithCommas(parts: seq<string>): string
  {
    if |parts| == 0 then ""
    else if |parts| == 1 then parts[0]
    else parts[0] + "," + JoinWithCommas(parts[1..])
  }

  /** The property key a value is converted to when it is used to look up a
      property (`handlers.hasOwnProperty(action.type)`): JavaScript's
      ToString. An array is joined with commas, its `undefined` and `null`
      elements becoming empty strings. */
  function ToKey(v: Value): (key: string)
    ensures v.Str? ==> key == v.s
    decreases v
  {
    match v
    case Undefined => "undefined"
    case Null => "null"
    case Bool(b) => if b then "true" else "false"
    case Num(n) => IntToString(n)
    case Str(s) => s
    case List(items) =>
      JoinWithCommas(seq(|items|, i requires 0 <= i < |items| =>
        if items[i].Undefined? || items[i].Null? then "" else ToKey(items[i])))
  }

  /** Two numbers look up the same handler only if they are equal: a number
      type is keyed by its decimal notation. */
  lemma NumKeysDistinct(a: SafeInt, b: SafeInt)
    ensures ToKey(Num(a)) == ToKey(Num(b)) <==> a == b
  {
    if ToKey(Num(a)) == ToKey(Num(b)) {
      IntToStringInjective(a, b);
    }
  }
}
