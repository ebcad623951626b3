/** The values a pyproject.toml document is built from. */
module Toml {
  import opened OrderedDict

  /**
   * A TOML value as the builder produces it: a string, a boolean, an array,
   * or a table whose entries keep their insertion order.
   */
  datatype Value =
    | Str(s: string)
    | Bool(b: bool)
    | List(items: seq<Value>)
    | Table(entries: seq<(string, Value)>)

  /** Every table, at every depth, has distinct keys: a value TOML can represent. */
  ghost predicate WellFormed(v: Value)
  {
    match v
    case Str(_) => true
    case Bool(_) => true
    case List(items) => forall i :: 0 <= i < |items| ==> WellFormed(items[i])
    case Table(entries) =>
      UniqueKeys(entries) && forall i :: 0 <= i < |entries| ==> WellFormed(entries[i].1)
  }
}
