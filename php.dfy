/** The slice of PHP value semantics the client's value objects rely on: decoded JSON values,
    truthiness (what `array_filter` without a callback and `?:` test), the `??` lookup, and the
    parameter type checks that `declare(strict_types=1)` turns into a TypeError. */
module Php {
  import opened Wrappers

  /** A value as `json_decode($body, true)` yields it or `json_encode` writes it. Objects are
      associative arrays; their key order is not modelled. Floats are kept as reals and never
      computed with. */
  datatype Json =
    | JNull
    | JBool(b: bool)
    | JInt(i: int)
    | JFloat(f: real)
    | JString(s: string)
    | JList(items: seq<Json>)
    | JObject(fields: map<string, Json>)
  {
    /** `is_array`: a list or an associative array. */
    predicate IsArray() {
      JList? || JObject?
    }
  }

  /** A value of PHP type `array`. */
  type Arr = j: Json | j.IsArray() witness JList([])

  /** An associative array as decoded from or encoded to a JSON object. */
  type Dict = map<string, Json>

  predicate StringTruthy(s: string) {
    s != "" && s != "0"
  }

  predicate ArrayTruthy(a: Arr) {
    match a
    case JList(items) => |items| > 0
    case JObject(fields) => |fields| > 0
  }

  /** PHP's conversion to bool: null, false, 0, 0.0, "", "0" and the empty array are falsy. */
  predicate Truthy(j: Json) {
    match j
    case JNull => false
    case JBool(b) => b
    case JInt(i) => i != 0
    case JFloat(f) => f != 0.0
    case JString(s) => StringTruthy(s)
    case JList(items) => |items| > 0
    case JObject(fields) => |fields| > 0
  }

  /** `$a != null` for a nullable list: PHP's loose comparison makes `[] == null`, so only a
      present, non-empty list counts as supplied. */
  predicate Supplied<T>(a: Option<seq<T>>) {
    a.Some? && |a.value| > 0
  }

  /** `$d[$k] ?? null`. */
  function Read(d: Dict, k: string): (r: Json)
    ensures r == JNull <==> k !in d || d[k] == JNull
    ensures k in d ==> r == d[k]
  {
    if k in d then d[k] else JNull
  }

  /** The entry written for a nullable field: the value, or `null`. */
  function FromNullable(a: Option<Json>): Json {
    if a.Some? then a.value else JNull
  }

  function FromNullableArr(a: Option<Arr>): Json {
    if a.Some? then a.value else JNull
  }

  function FromNullableString(a: Option<string>): Json {
    if a.Some? then JString(a.value) else JNull
  }

  function FromNullableInt(a: Option<int>): Json {
    if a.Some? then JInt(a.value) else JNull
  }

  // The readers below model passing `$d[$k]` (or `$d[$k] ?? null`) to a typed constructor
  // parameter under strict_types: None is the TypeError PHP raises for any other value; a
  // missing key reads as null.

  /** A `string` parameter fed from `$d[$k]`. */
  function ReadString(d: Dict, k: string): (r: Option<string>)
    ensures r.Some? <==> k in d && d[k].JString?
    ensures r.Some? ==> d[k] == JString(r.value)
  {
    match Read(d, k)
    case JString(s) => Some(s)
    case _ => None
  }

  /** An `array` parameter fed from `$d[$k]`. */
  function ReadArray(d: Dict, k: string): (r: Option<Arr>)
    ensures r.Some? <==> k in d && d[k].IsArray()
    ensures r.Some? ==> d[k] == r.value
  {
    var v := Read(d, k);
    if v.IsArray() then Some(v) else None
  }

  /** A `?array` parameter fed from `$d[$k] ?? null`: Some(None) is null. */
  function ReadNullableArray(d: Dict, k: string): (r: Option<Option<Arr>>)
    ensures r.Some? <==> Read(d, k) == JNull || Read(d, k).IsArray()
    ensures r == Some(None) <==> Read(d, k) == JNull
    ensures r.Some? && r.value.Some? ==> d[k] == r.value.value
  {
    var v := Read(d, k);
    if v == JNull then Some(None) else if v.IsArray() then Some(Some(v)) else None
  }

  /** A `?string` parameter fed from `$d[$k] ?? null`. */
  function ReadNullableString(d: Dict, k: string): (r: Option<Option<string>>)
    ensures r.Some? <==> Read(d, k) == JNull || Read(d, k).JString?
    ensures r == Some(None) <==> Read(d, k) == JNull
    ensures r.Some? && r.value.Some? ==> d[k] == JString(r.value.value)
  {
    match Read(d, k)
    case JNull => Some(None)
    case JString(s) => Some(Some(s))
    case _ => None
  }

  /** A `?int` parameter fed from `$d[$k] ?? null`. */
  function ReadNullableInt(d: Dict, k: string): (r: Option<Option<int>>)
    ensures r.Some? <==> Read(d, k) == JNull || Read(d, k).JInt?
    ensures r == Some(None) <==> Read(d, k) == JNull
    ensures r.Some? && r.value.Some? ==> d[k] == JInt(r.value.value)
  {
    match Read(d, k)
    case JNull => Some(None)
    case JInt(i) => Some(Some(i))
    case _ => None
  }

  /** A `bool` parameter fed from `$d[$k] ?? $default`. */
  function ReadBool(d: Dict, k: string, default: bool): (r: Option<bool>)
    ensures r.Some? <==> Read(d, k) == JNull || Read(d, k).JBool?
    ensures Read(d, k) == JNull ==> r == Some(default)
    ensures r.Some? && Read(d, k) != JNull ==> d[k] == JBool(r.value)
  {
    match Read(d, k)
    case JNull => Some(default)
    case JBool(b) => Some(b)
    case _ => None
  }

  /** The entry under `k` is null (or absent) or an array: what a `?array` parameter accepts. */
  predicate NullOrArray(d: Dict, k: string) {
    Read(d, k) == JNull || Read(d, k).IsArray()
  }

  /** `$d` restricted to the keys in `keys`. */
  function Restrict(d: Dict, keys: set<string>): (r: Dict)
    ensures r.Keys == d.Keys * keys
    ensures forall k :: k in r ==> r[k] == d[k]
  {
    map k | k in d && k in keys :: d[k]
  }

  /** `array_filter($d)`: keeps exactly the truthy entries. */
  function FilterFalsy(d: Dict): (r: Dict)
    ensures r.Keys <= d.Keys
    ensures forall k :: k in d ==> (k in r <==> Truthy(d[k]))
    ensures forall k :: k in r ==> r[k] == d[k]
  {
    map k | k in d && Truthy(d[k]) :: d[k]
  }

  /** `array_filter($d, fn($v) => $v !== null)`: keeps exactly the non-null entries. */
  function FilterNull(d: Dict): (r: Dict)
    ensures r.Keys <= d.Keys
    ensures forall k :: k in d ==> (k in r <==> d[k] != JNull)
    ensures forall k :: k in r ==> r[k] == d[k]
  {
    map k | k in d && d[k] != JNull :: d[k]
  }

  /** A list of strings as a PHP array. */
  function StringList(xs: seq<string>): (r: Arr)
    ensures r.JList? && |r.items| == |xs|
    ensures forall i :: 0 <= i < |xs| ==> r.items[i] == JString(xs[i])
  {
    JList(seq(|xs|, i requires 0 <= i < |xs| => JString(xs[i])))
  }
}
