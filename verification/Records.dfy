/** JSON values and the string-keyed dictionaries in which results travel. */
module Records {
  datatype Json =
    | Null
    | Boolean(b: bool)
    | Number(n: real)
    | Text(s: string)
    | Array(items: seq<Json>)
    | Object(fields: map<string, Json>)

  type Dict = map<string, Json>

  /** What can be added to a number. */
  predicate Countable(j: Json) {
    j.Number? || j.Boolean?
  }

  type Count = j: Json | Countable(j) witness Number(0.0)

  /** `d.get("tokens", 0)` can be added to a number. */
  predicate AddsUp(d: Dict) {
    "tokens" in d ==> Countable(d["tokens"])
  }

  /** What a ticket's coroutine hands back: a result dictionary or an exception. */
  datatype Raw = Value(dict: Dict) | Raised(kind: string, detail: string)

  predicate Truthy(j: Json) {
    match j
    case Null => false
    case Boolean(b) => b
    case Number(n) => n != 0.0
    case Text(s) => s != ""
    case Array(items) => items != []
    case Object(fields) => fields != map[]
  }

  /** Exactly the empty values, zero, false and null are falsy. */
  lemma FalsyValues(j: Json)
    ensures Truthy(j) <==>

              && j != Null && j != Boolean(false) && j != Number(0.0)
              && j != Text("") && j != Array([]) && j != Object(map[])
  {
  }

  /** `d.get(key)` is truthy. */
  predicate Has(d: Dict, key: string) {
    key in d && Truthy(d[key])
  }

  /** `d.get(key) is None`. */
  predicate Lacks(d: Dict, key: string) {
    key !in d || d[key] == Null
  }

  function FailureResult(ticket: string, error: string): (d: Dict)
    ensures error != "" ==> Has(d, "error") && !Lacks(d, "error")
    ensures !Has(d, "cache_hit") && AddsUp(d)
  {
    map["category" := Null, "priority" := Null, "summary" := Null,
        "error" := Text(error), "ticket" := Text(ticket), "tokens" := Number(0.0)]
  }
}
