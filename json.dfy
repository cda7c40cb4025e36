/** Parsed JSON values (the `unknown` of `JSON.parse`). Numbers are integers;
    objects are maps, so the insertion order of their keys is not represented. */
module Json {
  import opened Wrappers

  datatype Json =
    | JNull
    | JBool(b: bool)
    | JNum(n: int)
    | JStr(s: string)
    | JArr(items: seq<Json>)
    | JObj(fields: map<string, Json>)

  /** `obj[key]`, with `None` for a missing key (`undefined`). */
  function Get(m: map<string, Json>, key: string): (r: Option<Json>)
    ensures r.Some? <==> key in m
    ensures r.Some? ==> r.value == m[key]
  {
    if key in m then Some(m[key]) else None
  }

  /** `isPlainObject`: an object that is neither `null` nor an array. */
  predicate IsPlainObject(v: Option<Json>)
  {
    v.Some? && v.value.JObj?
  }

  /** `typeof v === 'string' ? v : undefined` for a field of an object. */
  function StringField(m: map<string, Json>, key: string): (r: Option<string>)
    ensures r.Some? <==> key in m && m[key].JStr?
    ensures r.Some? ==> m[key] == JStr(r.value)
  {
    if key in m && m[key].JStr? then Some(m[key].s) else None
  }

  /** Writes `key := v` into a record, or deletes `key` when `v` is `undefined`. */
  function SetOrDelete(m: map<string, Json>, key: string, v: Option<Json>): (r: map<string, Json>)
    ensures key in r <==> v.Some?
    ensures v.Some? ==> r[key] == v.value
    ensures forall k :: k != key ==> (k in r <==> k in m) && (k in r ==> r[k] == m[k])
  {
    if v.Some? then m[key := v.value] else m - {key}
  }

  /** A list of strings as a JSON array. */
  function Strs(xs: seq<string>): (r: seq<Json>)
    ensures |r| == |xs|
    ensures forall i :: 0 <= i < |xs| ==> r[i] == JStr(xs[i])
  {
    if xs == [] then [] else [JStr(xs[0])] + Strs(xs[1..])
  }
}
