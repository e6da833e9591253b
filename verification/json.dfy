/** The JSON values the payment views read, and Python's `value[key]` on them. */
module Json {
  import opened Wrappers
  import opened Faults

  /** A parsed JSON document. Numbers are integers: the gateway sends amounts in minor units. */
  datatype Json =
    | JNull
    | JBool(b: bool)
    | JNum(n: int)
    | JStr(s: string)
    | JArr(items: seq<Json>)
    | JObj(fields: map<string, Json>)

  /** `j[key]`: a KeyError when the key is absent, a TypeError when `j` is not a dict. */
  function Index(j: Json, key: string): (r: Result<Json, Fault>)
    ensures r.Ok? <==> j.JObj? && key in j.fields
    ensures r.Ok? ==> r.value == j.fields[key]
    ensures r.Err? ==> r.error == (if j.JObj? then MissingKey(key) else NotAMapping)
  {
    if !j.JObj? then Err(NotAMapping)
    else if key !in j.fields then Err(MissingKey(key))
    else Ok(j.fields[key])
  }

  /** `j[k0][k1]...`, failing at the first step that fails. */
  function Path(j: Json, keys: seq<string>): Result<Json, Fault>
    decreases |keys|
  {
    if keys == [] then Ok(j)
    else
      var v :- Index(j, keys[0]);
      Path(v, keys[1..])
  }

  /** `j.get(key)` on a dict: the value, or None (JSON null) when absent. */
  function Get(j: Json, key: string): (r: Result<Json, Fault>)
    ensures r.Ok? <==> j.JObj?
    ensures r.Ok? && key in j.fields ==> r.value == j.fields[key]
    ensures r.Ok? && key !in j.fields ==> r.value == JNull
  {
    if !j.JObj? then Err(NotAMapping)
    else if key in j.fields then Ok(j.fields[key])
    else Ok(JNull)
  }
}
