/**
 * The lesson list query of a subject: filter state, page and page size, and
 * the query string sent to the lesson endpoint.
 */
module FilteredLessons {
  import opened Wrappers
  import opened JsText
  import UrlParams

  /** The lesson filters; every field may be undefined. */
  datatype LessonFilters = LessonFilters(
    search: Option<string>,
    isLocked: Option<bool>,
    sortField: Option<string>,
    sortOrder: Option<string>)

  const NoFilters: LessonFilters := LessonFilters(None, None, None, None)

  /** A JavaScript truthiness test for an optional string. */
  predicate Truthy(s: Option<string>) { s.Some? && s.value != "" }

  function Keys(ps: seq<(string, string)>): (r: seq<string>)
    ensures |r| == |ps| && forall i :: 0 <= i < |ps| ==> r[i] == ps[i].0
  {
    seq(|ps|, i requires 0 <= i < |ps| => ps[i].0)
  }

  /** An optional string filter: sent under `key` only when it is a non-empty string. */
  function StringParam(key: string, v: Option<string>): seq<(string, string)> {
    if Truthy(v) then [(key, v.value)] else []
  }

  /** The lock filter: sent whenever it is defined, as "true" or "false". */
  function LockParam(b: Option<bool>): seq<(string, string)> {
    if b.Some? then [("isLocked", if b.value then "true" else "false")] else []
  }

  /** The parameter list queryFn builds, one optional entry per filter, then page and limit. */
  function ParamsOf(f: LessonFilters, search: Option<string>, page: int, pageSize: int): seq<(string, string)> {
    StringParam("search", search) + LockParam(f.isLocked) + StringParam("sort", f.sortField) +
    StringParam("order", f.sortOrder) + [("page", IntToString(page)), ("limit", IntToString(pageSize))]
  }

  /**
   * Which keys are sent: search only when non-empty, isLocked whenever it is
   * defined (false included), sort and order only when set, page and limit
   * always and last.
   */
  lemma ParamsKeys(f: LessonFilters, search: Option<string>, page: int, pageSize: int)
    ensures var ps := ParamsOf(f, search, page, pageSize);
      Keys(ps) ==
        (if Truthy(search) then ["search"] else []) +
        (if f.isLocked.Some? then ["isLocked"] else []) +
        (if Truthy(f.sortField) then ["sort"] else []) +
        (if Truthy(f.sortOrder) then ["order"] else []) +
        ["page", "limit"]
  {
  }

  /** The values sent: the search text, the lock flag as "true"/"false", the sort fields, the page numbers. */
  lemma ParamsValues(f: LessonFilters, search: Option<string>, page: int, pageSize: int)
    ensures var ps := ParamsOf(f, search, page, pageSize);
      && (forall p :: p in ps && p.0 == "search" ==> Truthy(search) && p.1 == search.value)
      && (forall p :: p in ps && p.0 == "isLocked" ==>
            f.isLocked.Some? && p.1 == if f.isLocked.value then "true" else "false")
      && (forall p :: p in ps && p.0 == "sort" ==> Truthy(f.sortField) && p.1 == f.sortField.value)
      && (forall p :: p in ps && p.0 == "order" ==> Truthy(f.sortOrder) && p.1 == f.sortOrder.value)
      && |ps| >= 2
      && ps[|ps| - 2] == ("page", IntToString(page))
      && ps[|ps| - 1] == ("limit", IntToString(pageSize))
  {
    var tail := [("page", IntToString(page)), ("limit", IntToString(pageSize))];
    forall p | p in tail ensures p.0 != "search" && p.0 != "isLocked" && p.0 != "sort" && p.0 != "order" {
      assert p.0 == "page" || p.0 == "limit";
      assert "page"[0] != "search"[0] && "page"[0] != "isLocked"[0] && "page"[0] != "sort"[0] && "page"[0] != "order"[0];
      assert "limit"[0] != "search"[0] && "limit"[0] != "isLocked"[0] && "limit"[0] != "sort"[0] && "limit"[0] != "order"[0];
    }
    assert "search"[0] != "isLocked"[0] && "search"[1] != "sort"[1] && "search"[0] != "order"[0];
    assert "isLocked"[0] != "sort"[0] && "isLocked"[0] != "order"[0] && "sort"[0] != "order"[0];
  }

  class Hook {
    const matiereId: string
    var filters: LessonFilters
    var page: int
    var pageSize: int

    /** useFilteredLessons: the filters start from the caller's, at page 1 with 6 lessons per page. */
    constructor (matiereId: string, initialFilters: Option<LessonFilters>)
      ensures this.matiereId == matiereId && page == 1 && pageSize == 6
      ensures filters == if initialFilters.Some? then initialFilters.value else NoFilters
    {
      this.matiereId := matiereId;
      filters := if initialFilters.Some? then initialFilters.value else NoFilters;
      page, pageSize := 1, 6;
    }

    /** The `enabled` flag of the query: only with a subject id. */
    predicate Enabled()
      reads this
    {
      matiereId != ""
    }

    /**
     * The parameters appended by queryFn, in order; `debouncedSearch` is the
     * search after the debounce delay.
     */
    method QueryParams(debouncedSearch: Option<string>) returns (params: seq<(string, string)>)
      ensures params == ParamsOf(filters, debouncedSearch, page, pageSize)
    {
      params := [];
      if Truthy(debouncedSearch) {
        params := params + [("search", debouncedSearch.value)];
      }
      assert params == StringParam("search", debouncedSearch);
      if filters.isLocked.Some? {
        params := params + [("isLocked", if filters.isLocked.value then "true" else "false")];
      }
      assert params == StringParam("search", debouncedSearch) + LockParam(filters.isLocked);
      if Truthy(filters.sortField) {
        params := params + [("sort", filters.sortField.value)];
      }
      assert params == StringParam("search", debouncedSearch) + LockParam(filters.isLocked) +
                       StringParam("sort", filters.sortField);
      if Truthy(filters.sortOrder) {
        params := params + [("order", filters.sortOrder.value)];
      }
      params := params + [("page", IntToString(page))];
      params := params + [("limit", IntToString(pageSize))];
    }

    /** The query string handed to the lesson endpoint. */
    method QueryString(debouncedSearch: Option<string>) returns (query: string)
      ensures query == UrlParams.Serialize(ParamsOf(filters, debouncedSearch, page, pageSize))
    {
      var params := QueryParams(debouncedSearch);
      query := UrlParams.Serialize(params);
    }
  }

  /** The server reads back the page and the page size the client wrote. */
  lemma PageParamsRoundTrip(page: int, pageSize: int)
    ensures ParseInt(IntToString(page)) == Some(page)
    ensures ParseInt(IntToString(pageSize)) == Some(pageSize)
  {
    IntToStringRoundTrip(page);
    IntToStringRoundTrip(pageSize);
  }
}
