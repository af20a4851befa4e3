/** JSON values as the route handlers build them. An object is a map from keys to
    values; a key whose value is `undefined` is absent, as in the serialized response. */
module Json {
  import opened Wrappers

  datatype Value =
    | Null
    | Bool(b: bool)
    | Num(n: int)
    | Str(s: string)
    | Arr(items: seq<Value>)
    | Obj(fields: map<string, Value>)

  type Object = map<string, Value>

  /** Reading a property: `None` is `undefined`. */
  function Field(o: Object, k: string): (r: Option<Value>)
    ensures r.Some? <==> k in o
  {
    if k in o then Some(o[k]) else None
  }

  /** JavaScript truthiness of a property value. */
  predicate Truthy(v: Option<Value>) {
    match v
    case None => false
    case Some(Null) => false
    case Some(Bool(b)) => b
    case Some(Num(n)) => n != 0
    case Some(Str(s)) => s != ""
    case Some(_) => true
  }

  /** `v || d`. */
  function OrElse(v: Option<Value>, d: Value): (r: Value)
    ensures Truthy(v) ==> r == v.value
    ensures !Truthy(v) ==> r == d
  {
    if Truthy(v) then v.value else d
  }

  /** `{...a, ...b}`: every key of `b` takes `b`'s value, the others keep `a`'s. */
  function Spread(a: Object, b: Object): (r: Object)
    ensures forall k :: Field(r, k) == if k in b then Field(b, k) else Field(a, k)
  {
    a + b
  }

  /** An object literal property `k: v`, dropped when `v` is `undefined`. */
  function With(o: Object, k: string, v: Option<Value>): (r: Object)
    ensures Field(r, k) == v
    ensures forall k' :: k' != k ==> Field(r, k') == Field(o, k')
  {
    if v.Some? then o[k := v.value] else o - {k}
  }

  /** The string value of a property; `None` when absent or not a string. */
  function StrField(o: Object, k: string): (r: Option<string>)
    ensures r.Some? <==> k in o && o[k].Str?
    ensures r.Some? ==> o[k] == Str(r.value)
  {
    if k in o && o[k].Str? then Some(o[k].s) else None
  }

  /** An optional string as a property value: `undefined` stays `undefined`. */
  function AsStr(s: Option<string>): (r: Option<Value>)
    ensures r.Some? <==> s.Some?
    ensures s.Some? ==> r.value == Str(s.value)
  {
    if s.Some? then Some(Str(s.value)) else None
  }
}
