/** The small part of JavaScript's value semantics that the auth engine relies on:
    the values it inspects, their truthiness, loose equality with `null`, `typeof`
    and property reads. Numbers are integers here; NaN and fractions are not modelled. */
module JsValues {

  /** A JavaScript value. `Fn` is a callable (its `typeof` is "function"); `Obj` is any
      other object, given by every property that `in` and property reads can see on it,
      its own and those inherited through its prototype alike. */
  datatype JsValue =
    | Undefined
    | Null
    | Bool(b: bool)
    | Num(n: int)
    | Str(s: string)
    | Fn(id: nat)
    | Obj(fields: map<string, JsValue>)

  /** The properties visible on an object. */
  type Props = map<string, JsValue>

  /** `v == null`: loose equality with null holds exactly for null and undefined. */
  predicate IsNullish(v: JsValue) {
    v.Undefined? || v.Null?
  }

  /** `!!v` */
  predicate Truthy(v: JsValue) {
    match v
    case Undefined => false
    case Null => false
    case Bool(b) => b
    case Num(n) => n != 0
    case Str(s) => s != ""
    case Fn(_) => true
    case Obj(_) => true
  }

  /** `typeof v` */
  function TypeOf(v: JsValue): (t: string)
    ensures t == "object" <==> v.Null? || v.Obj?
  {
    match v
    case Undefined => "undefined"
    case Null => "object"
    case Bool(_) => "boolean"
    case Num(_) => "number"
    case Str(_) => "string"
    case Fn(_) => "function"
    case Obj(_) => "object"
  }

  /** `a || b`: the first operand when it is truthy, otherwise the second. */
  function Or(a: JsValue, b: JsValue): JsValue {
    if Truthy(a) then a else b
  }

  /** `obj.name` on an object given by its properties: undefined when absent. */
  function Prop(obj: Props, name: string): JsValue {
    if name in obj then obj[name] else Undefined
  }

  /** `v?.name` (optional chaining), and plain property reads on primitives: only
      objects carry properties in this model. */
  function OptionalProp(v: JsValue, name: string): JsValue {
    if v.Obj? then Prop(v.fields, name) else Undefined
  }

  /** `'name' in v` for a value whose `typeof` is "object" and that is not null. */
  predicate HasOwn(v: JsValue, name: string) {
    v.Obj? && name in v.fields
  }

  /** `Object.assign({}, v || {})`: a fresh copy of the properties of `v`. Own and
      inherited properties are not told apart here, so inherited ones are copied too. */
  function CopyProps(v: JsValue): Props {
    if v.Obj? then v.fields else map[]
  }
}
