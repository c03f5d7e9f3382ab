/**
 * Dynamically typed values as the Python code sees them after YAML or JSON
 * decoding: the settings document, query filters, record dictionaries and
 * job parameters are all built from these.
 */
module Values {

  datatype Value =
    | Null
    | Bool(b: bool)
    | Int(i: int)
    | Str(s: string)
    | List(items: seq<Value>)
    | Dict(entries: map<string, Value>)

  /** A Python `dict` with string keys (insertion order is not modelled). */
  type Dict = map<string, Value>

  /** Python truthiness: `None`, `False`, `0` and empty containers are false. */
  predicate Truthy(v: Value)
  {
    match v
    case Null => false
    case Bool(b) => b
    case Int(i) => i != 0
    case Str(s) => s != ""
    case List(xs) => xs != []
    case Dict(m) => m != map[]
  }

  /**
   * `d.update(fields)`, or assigning `d[key] = value` for every field:
   * key by key over a copy of `d`, each field overriding the entry of `d`.
   */
  method Update(d: Dict, fields: Dict) returns (updated: Dict)
    ensures updated == d + fields
  {
    updated := d;
    var todo := fields.Keys;
    while todo != {}
      invariant todo <= fields.Keys
      invariant updated.Keys == d.Keys + (fields.Keys - todo)
      invariant forall k :: k in updated ==> updated[k] == if k in fields.Keys - todo then fields[k] else d[k]
      decreases todo
    {
      var key :| key in todo;
      updated := updated[key := fields[key]];
      todo := todo - {key};
    }
  }
}
