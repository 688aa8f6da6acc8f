/** JavaScript values as the response cache sees them: request descriptors,
    configuration objects, parsed store entries and origin payloads. */
module JsValues {

  datatype Option<+T> = None | Some(value: T)

  datatype Result<+T, +E> = Success(value: T) | Failure(error: E)

  /** A JavaScript value. Numbers are integers here, and an array is an
      object whose own property names are its indices. */
  datatype Value =
    | Undefined
    | Null
    | Bool(b: bool)
    | Num(n: int)
    | Str(s: string)
    | Obj(members: seq<Member>)

  /** One own enumerable property of an object, in insertion order. */
  datatype Member = Member(name: string, value: Value)

  /** The JSON codec the cache is given: `JSON.stringify`, and `JSON.parse`,
      which yields None where the real one throws. Both are left abstract. */
  datatype Json = Json(stringify: Value -> string, parse: string -> Option<Value>)

  /** `if (v)`: undefined, null, false, 0 and the empty string are falsy. */
  predicate Truthy(v: Value) {
    match v
    case Undefined => false
    case Null => false
    case Bool(b) => b
    case Num(n) => n != 0
    case Str(s) => s != ""
    case Obj(_) => true
  }

  /** `a || b` */
  function Or(a: Value, b: Value): Value {
    if Truthy(a) then a else b
  }

  /** lodash's `_.isObject`: objects (arrays included), never null. */
  predicate IsObject(v: Value) {
    v.Obj?
  }

  /** `Object.keys`: the own property names in insertion order. */
  function Names(ms: seq<Member>): seq<string> {
    seq(|ms|, i requires 0 <= i < |ms| => ms[i].name)
  }

  /** `obj[k]`: the value of the property named k, undefined when there is none. */
  function Lookup(ms: seq<Member>, k: string): Value {
    if ms == [] then Undefined
    else if ms[0].name == k then ms[0].value
    else Lookup(ms[1..], k)
  }

  /** `v.k` on any value; only objects have properties in this model. */
  function Property(v: Value, k: string): Value {
    if v.Obj? then Lookup(v.members, k) else Undefined
  }

  /** An object as a dictionary from property name to value. */
  function FieldMap(ms: seq<Member>): map<string, Value> {
    map k | k in Names(ms) :: Lookup(ms, k)
  }

  lemma {:induction false} LookupAbsent(ms: seq<Member>, k: string)
    requires k !in Names(ms)
    ensures Lookup(ms, k) == Undefined
  {
    if ms != [] {
      assert Names(ms) == [ms[0].name] + Names(ms[1..]);
      LookupAbsent(ms[1..], k);
    }
  }

  function DecimalDigits(n: nat): string
    decreases n
  {
    if n < 10 then [('0' as int + n) as char]
    else DecimalDigits(n / 10) + [('0' as int + n % 10) as char]
  }

  /** `String(v)`, the text `+` concatenates for a non-string operand. */
  function ToJsString(v: Value): string {
    match v
    case Undefined => "undefined"
    case Null => "null"
    case Bool(b) => if b then "true" else "false"
    case Num(n) => if n < 0 then "-" + DecimalDigits(-n) else DecimalDigits(n)
    case Str(s) => s
    case Obj(_) => "[object Object]"
  }
}
