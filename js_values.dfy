/**
 * The slice of JavaScript semantics the controllers rely on: dynamically
 * typed values as JSON.parse produces them, property access, truthiness,
 * the decimal text of an HTTP status code, and the ways a promise rejects.
 */
module JsValues {
  import opened Wrappers

  /** A JavaScript value as it arrives from callers or from a parsed JSON body. */
  datatype JsValue =
    | Undefined
    | Null
    | Bool(b: bool)
    | Num(n: real)
    | Str(s: string)
    | Arr(elems: seq<JsValue>)
    | Obj(props: map<string, JsValue>)

  /** The values on which reading a property throws a TypeError. */
  predicate IsNullish(v: JsValue) {
    v.Undefined? || v.Null?
  }

  /** JavaScript truthiness, as tested by `if (v)` and `!v`. */
  predicate Truthy(v: JsValue): (b: bool)
    ensures b <==> v !in {Undefined, Null, Bool(false), Num(0.0), Str("")}
  {
    match v
    case Undefined => false
    case Null => false
    case Bool(b) => b
    case Num(n) => n != 0.0
    case Str(s) => s != ""
    case Arr(_) => true
    case Obj(_) => true
  }

  /** A default parameter `p = null` replaces `undefined`, and only `undefined`. */
  function DefaultNull(v: JsValue): (r: JsValue)
    ensures v == Undefined ==> r == Null
    ensures v != Undefined ==> r == v
  {
    if v.Undefined? then Null else v
  }

  /** How a promise rejects: `new Error(message)`, a runtime TypeError, or a plain value. */
  datatype Rejection =
    | Error(message: string)
    | TypeError
    | Thrown(value: JsValue)

  /**
   * `v.key`: throws a TypeError on null and undefined; an own property of an
   * object is returned, and any other property reads as `undefined`.
   */
  function Prop(v: JsValue, key: string): (r: Result<JsValue, Rejection>)
    ensures r.Failure? <==> IsNullish(v)
    ensures r.Failure? ==> r.error == TypeError
    ensures v.Obj? && key in v.props ==> r == Success(v.props[key])
    ensures !IsNullish(v) && !(v.Obj? && key in v.props) ==> r == Success(Undefined)
  {
    match v
    case Undefined => Failure(TypeError)
    case Null => Failure(TypeError)
    case Obj(props) => Success(if key in props then props[key] else Undefined)
    case _ => Success(Undefined)
  }

  /** The value `v.key` reads where it does not throw. */
  function Field(v: JsValue, key: string): JsValue
    requires !IsNullish(v)
  {
    Prop(v, key).value
  }

  /** `new Date(source)`; the date parsing itself is not modelled. */
  datatype Date = DateFrom(source: JsValue)

  /** The text `JSON.stringify(of)`; the text format is not modelled. */
  datatype Json<+T> = Stringified(of: T)

  predicate IsDigit(c: char) {
    '0' <= c <= '9'
  }

  predicate AllDigits(s: string) {
    forall i :: 0 <= i < |s| ==> IsDigit(s[i])
  }

  function DigitChar(d: nat): (c: char)
    requires d < 10
    ensures IsDigit(c)
    ensures c as int - '0' as int == d
  {
    ('0' as int + d) as char
  }

  /**
   * The text of a non-negative integer Number, as `n + ': '` produces it:
   * decimal digits, most significant first, with no leading zero.
   */
  function NumberToString(n: nat): (s: string)
    ensures |s| >= 1 && AllDigits(s)
    ensures s[0] == '0' ==> n == 0 && s == "0"
  {
    if n < 10 then [DigitChar(n)] else NumberToString(n / 10) + [DigitChar(n % 10)]
  }

  /** The value of a string of decimal digits. */
  function DigitsValue(s: string): nat
    requires AllDigits(s)
  {
    if s == [] then 0 else DigitsValue(s[..|s| - 1]) * 10 + (s[|s| - 1] as int - '0' as int)
  }

  /** Reading the digits back gives the number: no information is lost. */
  lemma {:induction false} DigitsValueOfNumberToString(n: nat)
    ensures DigitsValue(NumberToString(n)) == n
  {
    if n >= 10 {
      var s := NumberToString(n);
      assert s[..|s| - 1] == NumberToString(n / 10);
      DigitsValueOfNumberToString(n / 10);
    }
  }

  /**
   * One controller call: the request it hands to the transport (None when it
   * rejects before making any) and how its promise settles.
   */
  datatype Exchange<+Q, +T> = Exchange(request: Option<Q>, outcome: Result<T, Rejection>)
}
