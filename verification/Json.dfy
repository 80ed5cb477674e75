/** JSON values, as far as the protocol looks into them. */
module Json {
  import opened Options

  datatype Json =
    | Null
    | Bool(bit: bool)
    | Number(value: real)
    | Str(text: string)
    | Arr(items: seq<Json>)
    | Obj(fields: seq<(string, Json)>)

  /** A JSON reader: None for malformed text. Which reader it is does not matter here. */
  type Loads = string -> Option<Json>
}
