/** JSON values as Go's encoding/json unmarshals them into `interface{}`. A missing
    field and an explicit null are both `Null`, Go's nil. */
module Json {
  import opened Wrappers

  datatype Json =
    | Null
    | Bool(b: bool)
    | Num(n: real)
    | Str(s: string)
    | Arr(items: seq<Json>)
    | Obj(fields: map<string, Json>)

  /** `json.Unmarshal` of a text into a value; None on a syntax error. */
  type Parser = string -> Option<Json>

  /** `m[key]` on a value that may not be an object, nil when absent. */
  function Field(v: Json, key: string): Json {
    if v.Obj? && key in v.fields then v.fields[key] else Null
  }

  /** The value as a string, "" when it is not one. */
  function AsString(v: Json): string {
    if v.Str? then v.s else ""
  }

  const EMPTY_OBJECT: Json := Obj(map[])
}
