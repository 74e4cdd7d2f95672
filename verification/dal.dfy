/**
 * The slice of the data abstraction layer the searcher and the property
 * resolvers talk to: search criteria and the result of a repository search.
 * Repositories themselves are functions the callers are handed.
 */
module Dal {
  import opened Wrappers

  /** `EqualsAnyFilter` and `EqualsFilter` on a boolean field. */
  datatype Filter = EqualsAny(field: string, values: seq<string>) | Equals(field: string, value: bool)

  /** `FieldSorting($field, ASCENDING)`. */
  datatype Sorting = Ascending(field: string)

  /**
   * A `Criteria` object: primary keys, filters, loaded associations, the
   * filters added on the `options` association, a title, a page size and
   * sortings.
   */
  datatype Criteria = Criteria(
    ids: seq<string>,
    filters: seq<Filter>,
    associations: seq<string>,
    optionsFilters: seq<Filter>,
    title: Option<string>,
    limit: Option<nat>,
    sortings: seq<Sorting>)

  /** `new Criteria($ids)`. */
  function ByIds(ids: seq<string>): Criteria {
    Criteria(ids, [], [], [], None, None, [])
  }

  /** A repository's search result: the entities found and the total it reports. */
  datatype SearchResult<E> = SearchResult(entities: seq<E>, total: int)
}
