/**
 * The lesson list page of a subject: search, sort and lock filters, the
 * pager, and the route a lesson card opens.
 */
module CourPage {
  import opened Wrappers
  import opened JsText
  import FL = FilteredLessons
  import PC = PaginationControls

  /** The filters the page starts with: newest lessons first. */
  const InitialFilters: FL.LessonFilters := FL.LessonFilters(None, None, Some("createdAt"), Some("desc"))

  /** The sort option value "field_order" split at '_' into the two filter fields. */
  function SortChoice(value: string): (r: (Option<string>, Option<string>))
  {
    var parts := Split(value, '_');
    (Some(parts[0]), if |parts| > 1 then Some(parts[1]) else None)
  }

  /** A sort value built from a field and an order without '_' splits back into them. */
  lemma SortChoiceRoundTrip(field: string, order: string)
    requires '_' !in field && '_' !in order
    ensures SortChoice(field + "_" + order) == (Some(field), Some(order))
  {
    SplitJoin([field, order], '_');
    assert Join([field, order], '_') == field + "_" + order;
  }

  /** The route a lesson card opens: the editor for its creator, the reader for everyone else. */
  function CardRoute(creatorId: string, userId: Option<string>, id: string): (route: string)
    ensures userId == Some(creatorId) ==> route == "modifier-cours/" + id
    ensures userId != Some(creatorId) ==> route == "cours/" + id
  {
    if userId.Some? && creatorId == userId.value then "modifier-cours/" + id else "cours/" + id
  }

  /** The pager is shown only when the response has pagination and more than one page. */
  function ShowPager(totalPages: Option<int>): (shown: bool)
    ensures shown <==> totalPages.Some? && totalPages.value > 1
  {
    totalPages.Some? && totalPages.value > 1
  }

  /** The numbered links: the same five-link rule as the class pager. */
  function Links(page: int, totalPages: int): seq<int> {
    PC.PageWindow(page, totalPages)
  }

  /** The page's handlers, acting on the lesson query hook. */
  class Page {
    const lessons: FL.Hook

    constructor (matiereId: Option<string>)
      ensures fresh(lessons)
      ensures lessons.matiereId == (if matiereId.Some? then matiereId.value else "")
      ensures lessons.filters == InitialFilters && lessons.page == 1 && lessons.pageSize == 6
    {
      lessons := new FL.Hook(if matiereId.Some? then matiereId.value else "", Some(InitialFilters));
    }

    /** handleSearch: a new search starts again at page 1. */
    method HandleSearch(value: string)
      modifies lessons
      ensures lessons.filters == old(lessons.filters).(search := Some(value)) && lessons.page == 1
      ensures lessons.pageSize == old(lessons.pageSize)
    {
      lessons.filters := lessons.filters.(search := Some(value));
      lessons.page := 1;
    }

    /** handleSortChange: only the two sort fields change. */
    method HandleSortChange(value: string)
      modifies lessons
      ensures lessons.filters == old(lessons.filters).(sortField := SortChoice(value).0,
                                                         sortOrder := SortChoice(value).1)
      ensures lessons.page == old(lessons.page) && lessons.pageSize == old(lessons.pageSize)
    {
      var parts := Split(value, '_');
      var field := parts[0];
      var order := if |parts| > 1 then Some(parts[1]) else None;
      lessons.filters := lessons.filters.(sortField := Some(field), sortOrder := order);
    }

    /** handleLockedToggle: pressed means locked lessons only; released drops the filter. */
    method HandleLockedToggle(pressed: bool)
      modifies lessons
      ensures lessons.filters == old(lessons.filters).(isLocked := if pressed then Some(true) else None)
      ensures lessons.page == old(lessons.page) && lessons.pageSize == old(lessons.pageSize)
    {
      lessons.filters := lessons.filters.(isLocked := if pressed then Some(true) else None);
    }

    /** The Previous button: never below page 1. */
    method Previous()
      modifies lessons
      ensures lessons.page == if old(lessons.page) - 1 >= 1 then old(lessons.page) - 1 else 1
      ensures lessons.page >= 1
      ensures lessons.filters == old(lessons.filters) && lessons.pageSize == old(lessons.pageSize)
    {
      lessons.page := if lessons.page - 1 >= 1 then lessons.page - 1 else 1;
    }

    /** The Next button: never above the last page. */
    method Next(totalPages: int)
      modifies lessons
      ensures lessons.page == if old(lessons.page) + 1 <= totalPages then old(lessons.page) + 1 else totalPages
      ensures lessons.page <= totalPages
      ensures lessons.filters == old(lessons.filters) && lessons.pageSize == old(lessons.pageSize)
    {
      lessons.page := if lessons.page + 1 <= totalPages then lessons.page + 1 else totalPages;
    }

    /** A numbered link: goes to the page it shows. */
    method LinkClick(page: int)
      modifies lessons
      ensures lessons.page == page
      ensures lessons.filters == old(lessons.filters) && lessons.pageSize == old(lessons.pageSize)
    {
      lessons.page := page;
    }
  }

  /** From any existing page, Previous and Next keep the page within [1, totalPages]. */
  lemma ButtonsStayInRange(page: int, totalPages: int)
    requires 1 <= page <= totalPages
    ensures var prev := if page - 1 >= 1 then page - 1 else 1;
            var next := if page + 1 <= totalPages then page + 1 else totalPages;
            1 <= prev <= totalPages && 1 <= next <= totalPages
  {
  }
}
