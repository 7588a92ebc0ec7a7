/**
 * The JavaScript values the module serialises with `JSON.stringify`: a query's
 * parameter set and the redaction marker that stands in for it on sensitive
 * calls. An object is its list of entries in key-insertion order.
 */
module Json {

  datatype Value =
    | Null
    | Bool(b: bool)
    | Number(n: int)
    | Str(s: string)
    | Array(items: seq<Value>)
    | Object(entries: seq<(string, Value)>)

  /** `{"sensitive_data_removed": null}`, what sensitive handlers hand to the error classifier. */
  const RedactionMarker: Value := Object([("sensitive_data_removed", Null)])
}
