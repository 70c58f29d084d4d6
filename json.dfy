/** JSON documents as the Python code sees them after `json.loads`: `None`, bools,
    numbers, strings, lists and dicts. A dict keeps its keys in insertion order
    (the order `values()` and `items()` visit them). A dict from `json.loads`
    never repeats a key; `Obj` does not enforce that, and on a repeated key
    `Lookup` sees the first field while `values()` and `items()` see them all. */
module Json {
  import opened Python

  datatype Json =
    | Null
    | Bool(b: bool)
    | Num(n: real)
    | Str(s: string)
    | Arr(items: seq<Json>)
    | Obj(fields: seq<Field>)

  datatype Field = Field(key: string, value: Json)

  const EmptyObj: Json := Obj([])

  /** `key in d` and `d[key]` for a dict given by its fields. */
  function Lookup(fields: seq<Field>, key: string): (r: Option<Json>)
    ensures r.None? <==> forall i :: 0 <= i < |fields| ==> fields[i].key != key
    ensures r.Some? ==> exists i :: 0 <= i < |fields| && fields[i] == Field(key, r.value)
  {
    if fields == [] then None
    else if fields[0].key == key then Some(fields[0].value)
    else Lookup(fields[1..], key)
  }

  /** `d.get(key, default)` for a dict given by its fields. */
  function ValueOr(fields: seq<Field>, key: string, default: Json): Json
  {
    match Lookup(fields, key)
    case None => default
    case Some(v) => v
  }

  /** `d.get(key, default)`: a non-dict has no `get` and raises AttributeError. */
  function Get(d: Json, key: string, default: Json): (r: Result<Json>)
    ensures r.Raise? <==> !d.Obj?
    ensures r.Raise? ==> r.exc == AttributeError
    ensures d.Obj? && Lookup(d.fields, key).None? ==> r == Ok(default)
    ensures d.Obj? && Lookup(d.fields, key).Some? ==> r == Ok(Lookup(d.fields, key).value)
    ensures d.Obj? ==> r == Ok(ValueOr(d.fields, key, default))
  {
    if !d.Obj? then Raise(AttributeError)
    else match Lookup(d.fields, key)
      case None => Ok(default)
      case Some(v) => Ok(v)
  }

  /** `bool(v)`: what an `if v:` or a `v or default` tests. */
  predicate Truthy(v: Json)
  {
    match v
    case Null => false
    case Bool(b) => b
    case Num(n) => n != 0.0
    case Str(s) => s != ""
    case Arr(items) => items != []
    case Obj(fields) => fields != []
  }

  /** The value of a bool or a number as Python compares it (`True == 1`). */
  predicate Numeric(v: Json)
  {
    v.Num? || v.Bool?
  }

  function NumericValue(v: Json): real
    requires Numeric(v)
  {
    if v.Num? then v.n else if v.b then 1.0 else 0.0
  }

  /** `v != 0`, which never raises. */
  predicate NonZero(v: Json)
  {
    !Numeric(v) || NumericValue(v) != 0.0
  }

  /** `v > 0`: only bools and numbers can be ordered against an int. */
  function GreaterThanZero(v: Json): (r: Result<bool>)
    ensures r.Ok? <==> Numeric(v)
    ensures r.Raise? ==> r.exc == TypeError
    ensures r.Ok? ==> r.value == (NumericValue(v) > 0.0)
  {
    if Numeric(v) then Ok(NumericValue(v) > 0.0) else Raise(TypeError)
  }

  /** `v >= x` for a float `x`. */
  function AtLeast(v: Json, x: real): (r: Result<bool>)
    ensures r.Ok? <==> Numeric(v)
    ensures r.Raise? ==> r.exc == TypeError
    ensures r.Ok? ==> r.value == (NumericValue(v) >= x)
  {
    if Numeric(v) then Ok(NumericValue(v) >= x) else Raise(TypeError)
  }

  /** `k == v` for an int `k`, which never raises. */
  predicate EqualsInt(k: int, v: Json)
  {
    Numeric(v) && NumericValue(v) == k as real
  }
}
