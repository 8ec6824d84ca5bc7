/** Shared vocabulary: optional values, decoded JSON, and the string operations several files use. */
module Basics {

  datatype Option<+T> = None | Some(value: T)

  /** A decoded JSON value. Numbers are finite; object fields are unordered. */
  datatype Json =
    | Null
    | Bool(flag: bool)
    | Number(n: real)
    | Text(text: string)
    | Items(items: seq<Json>)
    | Fields(fields: map<string, Json>)

  /** Reading `value.key`: absent on anything but an object holding that key. */
  function Field(value: Json, key: string): Option<Json> {
    if value.Fields? && key in value.fields then Some(value.fields[key]) else None
  }

  function TextField(value: Json, key: string): Option<string> {
    match Field(value, key)
    case Some(Text(s)) => Some(s)
    case _ => None
  }

  function NumberField(value: Json, key: string): Option<real> {
    match Field(value, key)
    case Some(Number(n)) => Some(n)
    case _ => None
  }

  predicate StartsWith(s: string, prefix: string) {
    |prefix| <= |s| && s[..|prefix|] == prefix
  }
}
