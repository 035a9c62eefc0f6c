/** The JavaScript values a request body can hold once it has been parsed
    as JSON, with the two JavaScript operations the handler applies to
    them: truthiness (`!x`) and property reads (`x.name`). */
module Json {
  import opened Wrappers

  /** A parsed JSON value. */
  datatype Value =
    | Null
    | Bool(b: bool)
    | Num(n: real)
    | Str(s: string)
    | Arr(elems: seq<Value>)
    | Obj(props: map<string, Value>)

  /** JavaScript truthiness of a value that may be `undefined` (`None`):
      `undefined`, `null`, `false`, `0` and `""` are falsy, every other
      value (including an empty array or object) is truthy. */
  predicate Truthy(v: Option<Value>)
  {
    match v
    case None => false
    case Some(Null) => false
    case Some(Bool(b)) => b
    case Some(Num(n)) => n != 0.0
    case Some(Str(s)) => s != ""
    case Some(Arr(_)) => true
    case Some(Obj(_)) => true
  }

  /** `undefined` or `null`: the two values whose destructuring throws. */
  predicate Nullish(v: Option<Value>)
  {
    v.None? || v.value.Null?
  }

  /** The property read `v.key` on a value that is not nullish: an own
      property of an object, and `undefined` for everything else (strings,
      numbers, booleans and arrays carry none of the names read here). */
  function Field(v: Option<Value>, key: string): (r: Option<Value>)
    ensures r.Some? <==> v.Some? && v.value.Obj? && key in v.value.props
    ensures r.Some? ==> r.value == v.value.props[key]
  {
    match v
    case Some(Obj(props)) => if key in props then Some(props[key]) else None
    case _ => None
  }

  /** On a string, truthiness is exactly non-emptiness. */
  lemma StringTruthiness(s: string)
    ensures Truthy(Some(Str(s))) <==> s != ""
  {
  }
}
