/** JSON documents as the proxy handles them, and Python's truthiness test on
    them, which the handlers use in `body or {}`, `if where:` and `if not payload:`. */
module Json {
  import opened Wrappers

  /** A decoded JSON value. Numbers are integers only: the proxy never looks at
      a number, it only builds the status code of an error envelope. */
  datatype Value =
    | Null
    | Bool(b: bool)
    | Number(n: int)
    | Str(s: string)
    | Array(items: seq<Value>)
    | Object(fields: map<string, Value>)

  /** Python's `bool(v)` on the decoded value: null, false, 0, "", [] and {} are false. */
  predicate Truthy(v: Value) {
    match v
    case Null => false
    case Bool(b) => b
    case Number(n) => n != 0
    case Str(s) => s != ""
    case Array(items) => items != []
    case Object(fields) => fields != map[]
  }

  /** Python's `bool(s)` on an optional string (`None` and "" are false). */
  predicate TruthyText(s: Option<string>) {
    s.Some? && s.value != ""
  }

  /** `v or {}`: a false body is replaced by the empty object. */
  function OrEmpty(v: Value): (r: Value)
    ensures Truthy(v) ==> r == v
    ensures !Truthy(v) ==> r == Object(map[])
    ensures Truthy(r) || r == Object(map[])
    ensures v.Object? ==> r == v
  {
    if Truthy(v) then v else Object(map[])
  }
}
