/**
 * The dynamic JavaScript values the response helpers and the grid form work on:
 * what a decoded JSON body, or a value held in a form, can be.
 * Numbers are integers here; NaN and fractions are not modelled.
 */
module Json {

  datatype Json =
    | Undefined
    | Null
    | Bool(b: bool)
    | Num(n: int)
    | Str(s: string)
    | Arr(items: seq<Json>)
    | Obj(fields: map<string, Json>)

  /** The outcome of JavaScript code that may raise a TypeError (reading a property of null or undefined). */
  datatype Thrown<+T> = Returned(value: T) | TypeError

  /** JavaScript truthiness: undefined, null, false, 0 and "" are falsy; arrays and objects are truthy. */
  predicate Truthy(v: Json) {
    match v
    case Undefined => false
    case Null => false
    case Bool(b) => b
    case Num(n) => n != 0
    case Str(s) => s != ""
    case Arr(_) => true
    case Obj(_) => true
  }

  /** `typeof v === 'object'`, which holds of null as well. */
  predicate IsTypeofObject(v: Json) {
    v.Null? || v.Arr? || v.Obj?
  }

  /**
   * `key in v` for one of the named keys the helpers test (data, message, error, displayData).
   * Arrays carry none of these keys, so only an object can have one.
   */
  predicate HasKey(v: Json, key: string)
    requires IsTypeofObject(v) && !v.Null?
  {
    v.Obj? && key in v.fields
  }

  /** Reading `v.key`: a TypeError on null and undefined, and undefined when the key is absent. */
  function Member(v: Json, key: string): (r: Thrown<Json>)
    ensures r.TypeError? <==> v.Undefined? || v.Null?
    ensures v.Obj? && key in v.fields ==> r == Returned(v.fields[key])
    ensures !(v.Obj? && key in v.fields) && !v.Undefined? && !v.Null? ==> r == Returned(Undefined)
  {
    match v
    case Undefined => TypeError
    case Null => TypeError
    case Obj(fields) => Returned(if key in fields then fields[key] else Undefined)
    case _ => Returned(Undefined)
  }

  /** The decimal digits of a natural number, most significant first. */
  function NatToDecimal(n: nat): (r: string)
    ensures |r| > 0
    ensures forall i :: 0 <= i < |r| ==> '0' <= r[i] <= '9'
    ensures r[0] == '0' ==> n == 0
  {
    var digit := ['0' + (n % 10) as char];
    if n < 10 then digit else NatToDecimal(n / 10) + digit
  }

  /** The value a string of decimal digits denotes; the partner of NatToDecimal. */
  function DecimalValue(s: string): int
  {
    if s == [] then 0 else DecimalValue(s[..|s| - 1]) * 10 + (s[|s| - 1] as int - '0' as int)
  }

  lemma {:induction false} DecimalRoundTrip(n: nat)
    ensures DecimalValue(NatToDecimal(n)) == n
  {
    var r := NatToDecimal(n);
    if n >= 10 {
      DecimalRoundTrip(n / 10);
      assert r[..|r| - 1] == NatToDecimal(n / 10);
    }
  }

  /** `String(n)` for an integer: a minus sign for a negative number, then the digits of its magnitude. */
  function IntToDecimal(n: int): (r: string)
    ensures |r| > 0
    ensures (r[0] == '-') <==> n < 0
    ensures n >= 0 ==> r == NatToDecimal(n)
    ensures n < 0 ==> r[1..] == NatToDecimal(-n)
  {
    if n < 0 then "-" + NatToDecimal(-n) else NatToDecimal(n)
  }

  /** Reading the text of an integer back gives its value: the digits denote the magnitude. */
  lemma IntDecimalRoundTrip(n: int)
    ensures n >= 0 ==> DecimalValue(IntToDecimal(n)) == n
    ensures n < 0 ==> IntToDecimal(n)[0] == '-' && DecimalValue(IntToDecimal(n)[1..]) == -n
  {
    if n >= 0 {
      DecimalRoundTrip(n);
    } else {
      DecimalRoundTrip(-n);
    }
  }

  /**
   * `String(v)`: arrays are joined with "," and render null and undefined elements as "",
   * plain objects render as "[object Object]".
   */
  function ToJsString(v: Json): (r: string)
    ensures v.Undefined? ==> r == "undefined"
    ensures v.Null? ==> r == "null"
    ensures v.Bool? ==> r == (if v.b then "true" else "false")
    ensures v.Num? ==> r == IntToDecimal(v.n)
    ensures v.Str? ==> r == v.s
    ensures v.Obj? ==> r == "[object Object]"
    ensures v.Arr? && v.items == [] ==> r == ""
    decreases v, 1
  {
    match v
    case Undefined => "undefined"
    case Null => "null"
    case Bool(b) => if b then "true" else "false"
    case Num(n) => IntToDecimal(n)
    case Str(s) => s
    case Arr(items) => JoinItems(v, 0)
    case Obj(_) => "[object Object]"
  }

  /** How `join` renders one array element: null and undefined as "", anything else by `String`. */
  function ItemText(item: Json): string
    decreases item, 2
  {
    if item.Undefined? || item.Null? then "" else ToJsString(item)
  }

  /** `items.slice(i).join(",")` for the array `a`. */
  function JoinItems(a: Json, i: nat): string
    requires a.Arr?
    decreases a, 0, |a.items| - i
  {
    if i >= |a.items| then ""
    else if i + 1 == |a.items| then ItemText(a.items[i])
    else ItemText(a.items[i]) + "," + JoinItems(a, i + 1)
  }

  lemma {:induction false} JoinShift(items: seq<Json>, i: nat)
    requires 1 <= i && items != []
    ensures JoinItems(Arr(items), i) == JoinItems(Arr(items[1..]), i - 1)
    decreases |items| - i
  {
    if i < |items| {
      assert items[1..][i - 1] == items[i];
      if i + 1 < |items| {
        JoinShift(items, i + 1);
      }
    }
  }

  /**
   * `String` of a non-empty array: its first element's text, then a comma and the text of the
   * rest when there is a rest.
   */
  lemma ArrayToJsString(items: seq<Json>)
    requires items != []
    ensures ToJsString(Arr(items))
         == ItemText(items[0]) + (if |items| == 1 then "" else "," + ToJsString(Arr(items[1..])))
  {
    if |items| > 1 {
      JoinShift(items, 1);
    }
  }
}
