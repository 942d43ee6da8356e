/** JSON values as the SDKs exchange them, and the two helper datatypes used everywhere. */
module Json {

  datatype Option<+T> = None | Some(value: T)

  datatype Result<+T, +E> = Success(value: T) | Failure(error: E)

  /** A JSON object; also the content of an agent context. */
  type Members = map<string, Json>

  /** `Int` is a number written without a fraction or exponent; every other
      number literal keeps its text. */
  datatype Json =
    | Null
    | Bool(b: bool)
    | Int(n: int)
    | Decimal(text: string)
    | Str(s: string)
    | Arr(items: seq<Json>)
    | Obj(members: Members)

  /** The string member `key` of an object, or the empty string when it is
      absent or not a string (a Go type assertion with the result ignored). */
  function StringMember(o: Members, key: string): string {
    if key in o && o[key].Str? then o[key].s else ""
  }
}
