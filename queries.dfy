/** The structured query the query processor hands to the data handler:
    the extracted entities, the filter dictionary and the parameter
    dictionary, each with its keys as record fields and a missing key as
    `None`. */
module Queries {
  import opened Wrappers

  /** The entities dictionary built by `match_entities`. */
  datatype Entities = Entities(
    country: Option<string>,
    year: Option<string>,
    medalType: Option<string>,
    comparison: Option<string>,
    quantity: Option<int>,
    analysis: bool,
    city: Option<string>,
    athlete: Option<string>)

  /** `query_params['filters']`. */
  datatype Filters = Filters(
    country: Option<string>,
    year: Option<string>,
    medalType: Option<string>,
    city: Option<string>,
    athlete: Option<string>,
    limit: Option<int>)

  const NoFilters := Filters(None, None, None, None, None, None)

  /** The parameter dictionary; `limit` and `ascending` are the top-level
      keys the ranking stage reads. */
  datatype QueryParams = QueryParams(
    intent: Option<string>,
    filters: Filters,
    entities: Option<Entities>,
    originalQuery: Option<string>,
    limit: Option<int>,
    ascending: Option<bool>)

  /** Python truthiness of an optional string: present and non-empty. */
  predicate Truthy(v: Option<string>) {
    v.Some? && v.value != ""
  }
}
