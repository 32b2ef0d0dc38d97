/** JavaScript values and the three operators the reducers lean on:
    truthiness (`||`), nullish coalescing (`??`) and optional property
    access (`?.`). Numbers are kept exact (no NaN, no floating point). */
module Js {

  datatype Option<+T> = None | Some(value: T)

  datatype Val =
    | Undefined
    | Null
    | Bool(b: bool)
    | Num(n: real)
    | Str(s: string)
    | Arr(elems: seq<Val>)
    | Obj(fields: map<string, Val>)

  /** JavaScript truthiness: `undefined`, `null`, `false`, `0` and `""` are falsy. */
  predicate Truthy(v: Val) {
    match v
    case Undefined => false
    case Null => false
    case Bool(b) => b
    case Num(n) => n != 0.0
    case Str(s) => s != ""
    case Arr(_) => true
    case Obj(_) => true
  }

  /** `a || b` */
  function Or(a: Val, b: Val): Val {
    if Truthy(a) then a else b
  }

  predicate IsNullish(v: Val) {
    v.Undefined? || v.Null?
  }

  /** `a ?? b` */
  function Nullish(a: Val, b: Val): Val {
    if IsNullish(a) then b else a
  }

  /** `v?.k`, and `v.k` on a value that is not an object with key `k`. */
  function Prop(v: Val, k: string): Val {
    if v.Obj? && k in v.fields then v.fields[k] else Undefined
  }

  /** `{ ...base, ...v }`: the keys of `v` override, every other key of `base`
      is kept; spreading `null` or `undefined` adds nothing. */
  function Spread(base: map<string, Val>, v: Val): (r: map<string, Val>)
    ensures v.Obj? ==> r.Keys == base.Keys + v.fields.Keys
    ensures v.Obj? ==> forall k :: k in v.fields ==> r[k] == v.fields[k]
    ensures forall k :: k in base && !(v.Obj? && k in v.fields) ==> k in r && r[k] == base[k]
    ensures IsNullish(v) ==> r == base
  {
    if v.Obj? then base + v.fields else base
  }
}
