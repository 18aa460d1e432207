/** The JavaScript values a bundler reply can take, with the language's
    truthiness and property lookup, as far as the submission classifier uses
    them. Numbers are integers: NaN and fractions are not modelled. */
module JsValues {

  datatype Js =
    | Undefined
    | Null
    | Bool(b: bool)
    | Num(n: int)
    | Str(s: string)
    | Arr(items: seq<Js>)
    | Obj(fields: map<string, Js>)

  /** JavaScript truthiness: `undefined`, `null`, `false`, `0` and `""` are falsy. */
  predicate Truthy(v: Js) {
    match v
    case Undefined => false
    case Null => false
    case Bool(b) => b
    case Num(n) => n != 0
    case Str(s) => s != ""
    case Arr(_) => true
    case Obj(_) => true
  }

  /** `v.key` for a named (non-index) key: only objects carry such properties;
      a missing property reads as `undefined`. Only called where `v` is truthy,
      so the TypeError of reading through `undefined`/`null` never arises. */
  function Prop(v: Js, key: string): Js {
    match v
    case Obj(fields) => if key in fields then fields[key] else Undefined
    case _ => Undefined
  }
}
