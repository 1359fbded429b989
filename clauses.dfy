/** The values a caller passes to add_filter and the filter clauses the session accumulates. */
module Clauses {
  import opened Wrappers

  /**
   * A filter value. Callers pass text or numbers (`add_filter("Готовность", ">=", 50)`),
   * and the user, version and project lookups replace a name by a numeric id.
   */
  datatype Value = Str(s: string) | Num(n: int)

  /**
   * One accumulated filter, the dictionary `{"filter": ..., "operator": ..., "values": [...]}`.
   * The operator is None when find_operator found no label; a value is None when the
   * merge rule appended Python's None to an existing clause.
   */
  datatype Clause = Clause(filter: Option<string>, operator: Option<string>, values: seq<Option<Value>>)
}
