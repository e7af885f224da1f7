/** The values `json.loads` can produce and a JavaScript client receives.
    Parsing and serialising text are not modelled: a parse is an oracle
    `string -> Option<Json>` whose `None` is a `JSONDecodeError`. */
module Json {
  import opened Common

  datatype Json =
    | JNull
    | JBool(b: bool)
    | JNum(n: real)
    | JStr(s: string)
    | JArray(items: seq<Json>)
    | JObject(fields: map<string, Json>)

  /** Python's `d.get(key, default)`; `None` when `j` is not a dict, where
      `.get` raises `AttributeError`. */
  function Get(j: Json, key: string, default: Json): (r: Option<Json>)
    ensures r.Some? <==> j.JObject?
    ensures j.JObject? && key !in j.fields ==> r == Some(default)
  {
    match j
    case JObject(fields) => Some(if key in fields then fields[key] else default)
    case _ => None
  }

  /** The five-key trend narrative the application builds itself. */
  function Narrative(strength: real, direction: string, summary: string, insights: string,
                     recommendations: string): Json
  {
    JObject(map[
      "trend_strength" := JNum(strength),
      "trend_direction" := JStr(direction),
      "summary" := JStr(summary),
      "insights" := JStr(insights),
      "recommendations" := JStr(recommendations)])
  }
}
