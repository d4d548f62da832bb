/**
 * Namespace resolution shared by the pkg/server handlers: a non-empty
 * `namespace` query parameter overrides the default.
 */
module Namespaces {

  /** The decoded URL query, parameter name to its first value. */
  type Query = map<string, string>

  /** `r.URL.Query().Get(key)`: the value, or "" when the parameter is absent. */
  function QueryGet(query: Query, key: string): (value: string)
    ensures key !in query ==> value == ""
    ensures key in query ==> value == query[key]
  {
    if key in query then query[key] else ""
  }

  /** The namespace the list handler refuses to serve. */
  const ReservedNamespace := "kube-system"

  /** The query's `namespace` when it is non-empty, otherwise `fallback`. */
  function EffectiveNamespace(fallback: string, query: Query): (ns: string)
    ensures ("namespace" in query && query["namespace"] != "") ==> ns == query["namespace"]
    ensures !("namespace" in query && query["namespace"] != "") ==> ns == fallback
  {
    var requested := QueryGet(query, "namespace");
    if |requested| > 0 then requested else fallback
  }
}
