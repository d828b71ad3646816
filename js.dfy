/** JavaScript values and plain objects, as far as the dashboards' handlers and
    mock repository use them. */
module Js {
  import opened Text
  import opened Opt

  /** A JavaScript value held in a record or a request body. Nested objects and
      arrays are not needed by the modelled code; a `Date` is an object holding a
      millisecond timestamp. */
  datatype Value =
    | Undefined
    | Null
    | Bool(b: bool)
    | Num(n: int)
    | Str(s: string)
    | Date(time: int)

  /** A plain object: its own properties by name. A property may be present and
      hold `undefined`, which is not the same as being absent. */
  type Obj = map<string, Value>

  /** Property read `o.k`: a missing property reads as `undefined`. */
  function Get(o: Obj, k: string): Value {
    if k in o then o[k] else Undefined
  }

  /** `{...base, ...over}`: the properties of `over` win over those of `base`. */
  function Spread(base: Obj, over: Obj): (r: Obj)
    ensures r.Keys == base.Keys + over.Keys
    ensures forall k :: k in over ==> r[k] == over[k]
    ensures forall k :: k in base && k !in over ==> r[k] == base[k]
  {
    base + over
  }

  /** JavaScript truthiness. */
  predicate Truthy(v: Value) {
    match v
    case Undefined => false
    case Null => false
    case Bool(b) => b
    case Num(n) => n != 0
    case Str(s) => s != ""
    case Date(_) => true
  }

  /** `new URL(url).searchParams.get(name)` yields a string or `null`. */
  function SearchParam(q: Option<string>): Value {
    match q
    case None => Null
    case Some(s) => Str(s)
  }

  /** A value a JSON body can carry (no `undefined`, no `Date` object). */
  predicate IsJson(v: Value) {
    !v.Undefined? && !v.Date?
  }

  /** The property name `o[v]` uses: the value converted to a string. A `Date`
      converts through its locale-dependent `toString`, which is not modelled. */
  function PropertyKey(v: Value): string
    requires !v.Date?
  {
    match v
    case Undefined => "undefined"
    case Null => "null"
    case Bool(b) => if b then "true" else "false"
    case Num(n) => IntToString(n)
    case Str(s) => s
  }

  /** Distinct strings stay distinct keys, so writing under one never touches another. */
  lemma StringKeysDistinct(a: string, b: string)
    requires a != b
    ensures PropertyKey(Str(a)) != PropertyKey(Str(b))
  {
  }
}
