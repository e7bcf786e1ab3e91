/** The JSON values a session receives. */
module Json {

  datatype Json =
    | Null
    | Bool(b: bool)
    | Number(n: int)
    | String(s: string)
    | Array(items: seq<Json>)
    | Object(fields: map<string, Json>)

  predicate HasString(fields: map<string, Json>, key: string) {
    key in fields && fields[key].String?
  }
}
