/** JSON values, as `serde_json::Value` holds them. */
module JsonValue {
  /** A number stands for its printed text. */
  datatype Json =
    | Null | Bool(b: bool) | Number(text: string) | Str(s: string) | Arr(items: seq<Json>)
    | Obj(fields: map<string, Json>)
}
