/**
 * Decoded JSON values and the two ways the extractor looks keys up in them:
 * subscripting (`items['user']`), which raises when a key is absent, and
 * `dict.get(key, default)`, which substitutes the default.
 */
module JsonValues {
  import opened Wrappers

  /** A value as `json.loads` returns it (floating-point numbers are not modelled). */
  datatype Json =
    | Null
    | Bool(b: bool)
    | Int(i: int)
    | Str(s: string)
    | List(items: seq<Json>)
    | Object(fields: map<string, Json>)

  /** One tweet: the JSON object decoded from one line of the input file. */
  type Record = map<string, Json>

  /** The Python exceptions a lookup can raise. */
  datatype Failure =
    | KeyError(key: string)   // subscript of a dict that lacks the key
    | TypeError               // subscript of a non-dict, or re.sub applied to a non-string
    | AttributeError          // `.get` called on a value that is not a dict

  /** `items[key]` on a record: the stored value, or KeyError when the key is absent. */
  function Field(r: Record, key: string): (v: Result<Json, Failure>)
    ensures v.Ok? <==> key in r
    ensures v.Ok? ==> v.value == r[key]
    ensures v.Err? ==> v.error == KeyError(key)
  {
    if key in r then Ok(r[key]) else Err(KeyError(key))
  }

  /** `v[key]` on an arbitrary value: only a dict can be subscripted by a string. */
  function Index(v: Json, key: string): (r: Result<Json, Failure>)
    ensures r.Ok? <==> v.Object? && key in v.fields
    ensures r.Ok? ==> r.value == v.fields[key]
    ensures !v.Object? ==> r == Err(TypeError)
    ensures v.Object? && key !in v.fields ==> r == Err(KeyError(key))
  {
    match v
    case Object(m) => if key in m then Ok(m[key]) else Err(KeyError(key))
    case _ => Err(TypeError)
  }

  /** The record holds a dict under k1, and that dict holds k2. */
  predicate HasPath(r: Record, k1: string, k2: string)
  {
    k1 in r && r[k1].Object? && k2 in r[k1].fields
  }

  /** `items[k1][k2]`: succeeds exactly when every key on the path is present, and
      otherwise reports the level at which it failed. */
  function Lookup2(r: Record, k1: string, k2: string): (v: Result<Json, Failure>)
    ensures v.Ok? <==> HasPath(r, k1, k2)
    ensures v.Ok? ==> v.value == r[k1].fields[k2]
    ensures k1 !in r ==> v == Err(KeyError(k1))
    ensures k1 in r && !r[k1].Object? ==> v == Err(TypeError)
    ensures k1 in r && r[k1].Object? && k2 !in r[k1].fields ==> v == Err(KeyError(k2))
  {
    match Field(r, k1)
    case Err(e) => Err(e)
    case Ok(u) => Index(u, k2)
  }

  /** `items.get(key, default)` on a record: never raises, and gives the default
      exactly when the key is absent. */
  function Get(r: Record, key: string, default: Json): (v: Json)
    ensures key !in r ==> v == default
    ensures key in r ==> v == r[key]
  {
    if key in r then r[key] else default
  }

  /** `v.get(key, default)` on an arbitrary value: raises AttributeError unless `v` is
      a dict, and on a dict behaves as `Get`. */
  function GetFrom(v: Json, key: string, default: Json): (r: Result<Json, Failure>)
    ensures r.Ok? <==> v.Object?
    ensures !v.Object? ==> r == Err(AttributeError)
    ensures v.Object? ==> r.value == Get(v.fields, key, default)
  {
    match v
    case Object(m) => Ok(Get(m, key, default))
    case _ => Err(AttributeError)
  }
}
