/** JSON values as the JavaScript and Python code holds them once parsed. */
module Json {

  /** Numbers are integers (fractions are not modelled); an object maps field names to
      values, so the textual order of its fields is not kept. Python's `None` is `JNull`. */
  datatype Json =
    | JNull
    | JBool(b: bool)
    | JNum(n: int)
    | JStr(s: string)
    | JArr(items: seq<Json>)
    | JObj(fields: map<string, Json>)

  /** The literal `{}`. */
  const EmptyObject: Json := JObj(map[])
}
