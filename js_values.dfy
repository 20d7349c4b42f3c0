/**
 * Dynamically typed values as the agent library (JavaScript) and the JSON
 * configuration documents see them. Numbers are restricted to integers.
 * `Undefined` also stands for a property that is absent.
 */
module JsValues {
  import opened Wrappers
  import opened Text

  datatype Value =
    | Undefined
    | Null
    | Bool(b: bool)
    | Num(n: int)
    | Str(s: string)
    | Arr(items: seq<Value>)
    | Obj(fields: map<string, Value>)

  /** JavaScript truthiness: `undefined`, `null`, `false`, `0` and `""` are falsy, objects and arrays are not. */
  predicate Truthy(v: Value) {
    match v
    case Undefined => false
    case Null => false
    case Bool(b) => b
    case Num(n) => n != 0
    case Str(s) => s != ""
    case Arr(_) => true
    case Obj(_) => true
  }

  /** `a || b`: the first operand when it is truthy, the second otherwise. */
  function Or(a: Value, b: Value): Value {
    if Truthy(a) then a else b
  }

  /**
   * The TypeErrors of property access on `undefined` or `null` (the `base`):
   * reading property `key`, or destructuring a pattern whose first property
   * is `key` from the expression written `source`.
   */
  datatype TypeError =
    | CannotReadProperty(base: string, key: string)
    | CannotDestructure(key: string, source: string, base: string)

  /** The error's `message`, as the engine words it. */
  function TypeErrorMessage(e: TypeError): string {
    match e
    case CannotReadProperty(base, key) => "Cannot read properties of " + base + " (reading '" + key + "')"
    case CannotDestructure(key, source, base) =>
      "Cannot destructure property '" + key + "' of '" + source + "' as it is " + base + "."
  }

  /** A thrown `Error` object as a caught value: only its `message` property is set. */
  function ErrorObject(message: string): (v: Value)
    ensures v.Obj? && v.fields.Keys == {"message"} && v.fields["message"] == Str(message)
  {
    Obj(map["message" := Str(message)])
  }

  /** `v[key]` for a property name: fails exactly on `undefined` and `null`. */
  function Member(v: Value, key: string): (r: Result<Value, TypeError>)
    ensures r.Failure? <==> v.Undefined? || v.Null?
    ensures v.Obj? ==> r == Success(if key in v.fields then v.fields[key] else Undefined)
  {
    match v
    case Undefined => Failure(CannotReadProperty("undefined", key))
    case Null => Failure(CannotReadProperty("null", key))
    case Obj(m) => Success(if key in m then m[key] else Undefined)
    case _ => Success(Undefined)
  }

  /**
   * `const { key, ... } = v`, where `v` is written `source`: fails exactly on
   * `undefined` and `null`, and otherwise binds the property, or `undefined`
   * when `v` has no such own property.
   */
  function Destructure(v: Value, key: string, source: string): (r: Result<Value, TypeError>)
    ensures r.Failure? <==> v.Undefined? || v.Null?
    ensures r.Failure? ==> r.error == CannotDestructure(key, source, if v.Undefined? then "undefined" else "null")
    ensures v.Obj? ==> r == Success(if key in v.fields then v.fields[key] else Undefined)
    ensures !v.Obj? && r.Success? ==> r.value == Undefined
  {
    match v
    case Undefined => Failure(CannotDestructure(key, source, "undefined"))
    case Null => Failure(CannotDestructure(key, source, "null"))
    case Obj(m) => Success(if key in m then m[key] else Undefined)
    case _ => Success(Undefined)
  }

  /** `v?.[key]`: optional chaining gives `undefined` instead of failing. */
  function OptionalMember(v: Value, key: string): Value {
    if v.Undefined? || v.Null? then Undefined else Member(v, key).value
  }

  /** `v[0]`: the first element of an array or string, property "0" of an object. */
  function First(v: Value): (r: Result<Value, TypeError>)
    ensures r.Failure? <==> v.Undefined? || v.Null?
  {
    match v
    case Undefined => Failure(CannotReadProperty("undefined", "0"))
    case Null => Failure(CannotReadProperty("null", "0"))
    case Arr(items) => Success(if items != [] then items[0] else Undefined)
    case Str(s) => Success(if s != "" then Str([s[0]]) else Undefined)
    case Obj(m) => Success(if "0" in m then m["0"] else Undefined)
    case _ => Success(Undefined)
  }

  /** The text a template literal `${v}` inserts for `v`. */
  function ToText(v: Value): string
    decreases v, 0
  {
    match v
    case Undefined => "undefined"
    case Null => "null"
    case Bool(b) => if b then "true" else "false"
    case Num(n) => IntToString(n)
    case Str(s) => s
    case Arr(items) => Join(seq(|items|, i requires 0 <= i < |items| => ElementText(items[i])), ",")
    case Obj(_) => "[object Object]"
  }

  /** How `Array.prototype.join` writes one element: `undefined` and `null` become empty. */
  function ElementText(v: Value): string
    decreases v, 1
  {
    if v.Undefined? || v.Null? then "" else ToText(v)
  }

  /** `values.join(sep)` */
  function JoinValues(values: seq<Value>, sep: string): string {
    Join(seq(|values|, i requires 0 <= i < |values| => ElementText(values[i])), sep)
  }

  /** An array of strings, as a JSON document holds it. */
  function StrArr(items: seq<string>): (v: Value)
    ensures v.Arr? && |v.items| == |items|
    ensures forall i | 0 <= i < |items| :: v.items[i] == Str(items[i])
  {
    Arr(seq(|items|, i requires 0 <= i < |items| => Str(items[i])))
  }
}
