/** JavaScript values as the library sees them: loosely typed option
    objects, JSON payloads, and the JS coercions the library relies on
    (truthiness, `??`, object spread, `String(x)`). */
module Values {

  datatype Option<+T> = None | Some(value: T) {
    function GetOr(default: T): T {
      match this
      case Some(v) => v
      case None => default
    }
  }

  /** A promise that resolves (`Pass`) or rejects with an error (`Fail`). */
  datatype Outcome<+E> = Pass | Fail(error: E)

  /** A promise that resolves with a value or rejects with an error. */
  datatype Result<+R, +E> = Success(value: R) | Failure(error: E)

  /** A promise as the event loop sees it: it settles a number of
      milliseconds after it was created (0: already settled), or never. */
  datatype Settling<+T> = ResolvesAfter(value: T, after: nat) | RejectsAfter(reason: string, after: nat) | NeverSettles

  /** Errors are carried as their message text. */
  type Error = string

  /** A JavaScript value. A missing key (or a missing argument) is `None`;
      `Undefined` is a key that is present with the value `undefined`.
      `Func` stands for a function value, identified by its name. */
  datatype Value =
    | Undefined
    | Null
    | Bool(b: bool)
    | Num(n: int)
    | Str(s: string)
    | Func(name: string)
    | Obj(fields: Options)

  /** A plain object: its own enumerable properties. */
  type Options = map<string, Value>

  /** Flat string-keyed message attributes. */
  type Attributes = map<string, string>

  /** `obj?.key`: the value at `key`, or `undefined` (None). */
  function Field(obj: Option<Options>, key: string): (r: Option<Value>)
    ensures r.Some? <==> obj.Some? && key in obj.value
    ensures r.Some? ==> r.value == obj.value[key]
  {
    if obj.Some? && key in obj.value then Some(obj.value[key]) else None
  }

  /** JavaScript truthiness; `undefined` is falsy. */
  predicate Truthy(v: Option<Value>) {
    match v
    case None => false
    case Some(Undefined) => false
    case Some(Null) => false
    case Some(Bool(b)) => b
    case Some(Num(n)) => n != 0
    case Some(Str(s)) => s != ""
    case Some(Func(_)) => true
    case Some(Obj(_)) => true
  }

  /** A field declared `number` in the library's option types, read through
      `??`: `undefined` and `null` give None. Values outside the declared
      type are treated as absent. */
  function NumberField(obj: Option<Options>, key: string): (r: Option<int>)
    ensures r.Some? <==> Field(obj, key).Some? && Field(obj, key).value.Num?
    ensures r.Some? ==> Field(obj, key).value == Num(r.value)
  {
    match Field(obj, key)
    case Some(Num(n)) => Some(n)
    case _ => None
  }

  /** `{...v}`: the own properties an object spread copies. Spreading
      `undefined`, `null`, a boolean, a number or a function copies nothing;
      a string is treated the same way (its index keys are not modelled). */
  function Spread(v: Option<Value>): (r: Options)
    ensures v.Some? && v.value.Obj? ==> r == v.value.fields
    ensures !(v.Some? && v.value.Obj?) ==> r == map[]
  {
    if v.Some? && v.value.Obj? then v.value.fields else map[]
  }

  /** Decimal digits of a natural number, most significant first. */
  function NatToDecimal(n: nat): (r: string)
    ensures |r| > 0
    ensures forall i :: 0 <= i < |r| ==> '0' <= r[i] <= '9'
    ensures (r[0] == '0') <==> (n == 0)
  {
    var d := [(('0' as int) + n % 10) as char];
    if n < 10 then d else NatToDecimal(n / 10) + d
  }

  /** `String(x)` for the values a publish call can resolve with. */
  function JsString(v: Option<Value>): (r: string)
    ensures v.Some? && v.value.Str? ==> r == v.value.s
    ensures v.None? || v == Some(Undefined) ==> r == "undefined"
  {
    match v
    case None => "undefined"
    case Some(Undefined) => "undefined"
    case Some(Null) => "null"
    case Some(Bool(b)) => if b then "true" else "false"
    case Some(Num(n)) => if n < 0 then "-" + NatToDecimal(-n) else NatToDecimal(n)
    case Some(Str(s)) => s
    case Some(Func(name)) => "function " + name
    case Some(Obj(_)) => "[object Object]"
  }

  /** Decimal text of a number, read back. */
  function DecimalValue(s: string): (r: nat)
    requires forall i :: 0 <= i < |s| ==> '0' <= s[i] <= '9'
  {
    if s == [] then 0 else DecimalValue(s[..|s| - 1]) * 10 + (s[|s| - 1] as int - '0' as int)
  }

  /** `String(n)` on a natural number reads back as `n`. */
  lemma {:induction false} NatToDecimalRoundTrip(n: nat)
    ensures DecimalValue(NatToDecimal(n)) == n
  {
    var d := [(('0' as int) + n % 10) as char];
    if n >= 10 {
      var s := NatToDecimal(n / 10) + d;
      assert s[..|s| - 1] == NatToDecimal(n / 10);
      NatToDecimalRoundTrip(n / 10);
    }
  }
}
