/**
 * JSON as the workflow interpreter sees it: the dynamic `interface{}` values
 * that encoding/json produces, as a tagged datatype.  The byte format is not
 * modelled; a Codec supplies unmarshalling and marshalling.
 */
module Json {
  import opened Base

  datatype Json =
    | JNull
    | JBool(b: bool)
    | JNumber(literal: string)
    | JString(s: string)
    | JArray(items: seq<Json>)
    | JObject(fields: map<string, Json>)

  /** json.Unmarshal (None on a syntax error) and json.Marshal of a Json value. */
  datatype Codec = Codec(unmarshal: string -> Option<Json>, marshal: Json -> string)

  /**
   * json.Unmarshal of `s` into a freshly made map[string]interface{}.  An
   * object fills the map; the literal null leaves the map empty and is not an
   * error; any other JSON value is a type error.
   */
  function DecodeObject(codec: Codec, s: string): (r: Result<map<string, Json>>)
    ensures r.Ok? <==> codec.unmarshal(s).Some? && (codec.unmarshal(s).value.JObject? || codec.unmarshal(s).value.JNull?)
    ensures r.Err? ==> r.error == (if codec.unmarshal(s).None? then InvalidJson else NotAnObject)
    ensures r.Ok? ==> r.value == if codec.unmarshal(s).value.JObject? then codec.unmarshal(s).value.fields else map[]
  {
    match codec.unmarshal(s)
    case None => Err(InvalidJson)
    case Some(JObject(fields)) => Ok(fields)
    case Some(JNull) => Ok(map[])
    case Some(_) => Err(NotAnObject)
  }
}
