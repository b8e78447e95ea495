/** The untyped JSON document (serde_json's `Value`) that every controller
    response is parsed into, and the accessors the client probes it with. */
module Json {
  import opened Wrappers

  /** Numbers are integers: the client only ever builds integer numbers
      (a rule index) and never inspects a number it receives. */
  datatype Json =
    | Null
    | Bool(b: bool)
    | Num(n: int)
    | Str(s: string)
    | Arr(items: seq<Json>)
    | Obj(fields: map<string, Json>)

  /** `value.get(key)`: an object's member; nothing for any other kind of value. */
  function Field(v: Json, key: string): (r: Option<Json>)
    ensures r.Some? <==> v.Obj? && key in v.fields
    ensures r.Some? ==> r.value == v.fields[key]
  {
    if v.Obj? && key in v.fields then Some(v.fields[key]) else None
  }

  /** `value.get(key).and_then(|v| v.as_str())`. */
  function StrField(v: Json, key: string): (r: Option<string>)
    ensures r.Some? <==> v.Obj? && key in v.fields && v.fields[key].Str?
    ensures r.Some? ==> r.value == v.fields[key].s
  {
    match Field(v, key)
    case Some(Str(s)) => Some(s)
    case _ => None
  }

  /** `value.get(key).and_then(|v| v.as_array())`. */
  function ArrayField(v: Json, key: string): (r: Option<seq<Json>>)
    ensures r.Some? <==> v.Obj? && key in v.fields && v.fields[key].Arr?
    ensures r.Some? ==> r.value == v.fields[key].items
  {
    match Field(v, key)
    case Some(Arr(items)) => Some(items)
    case _ => None
  }

  /** `json!(strings)` for a vector of strings. */
  function Strings(ss: seq<string>): (r: Json)
    ensures r.Arr? && |r.items| == |ss|
    ensures forall i :: 0 <= i < |ss| ==> r.items[i] == Str(ss[i])
  {
    Arr(seq(|ss|, i requires 0 <= i < |ss| => Str(ss[i])))
  }
}
