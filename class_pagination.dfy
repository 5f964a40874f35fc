/**
 * The pagination state of the class list: current page, page size, and the
 * "showing start-end of total" figures.
 */
module ClassPagination {
  import opened Wrappers

  const DefaultItemsPerPage: int := 6

  /** The figures of the "showing" line; indices are 1-based and 0 for an empty list. */
  datatype PageInfo = PageInfo(startIndex: int, endIndex: int, totalItems: int)

  function Min(a: int, b: int): int { if a <= b then a else b }

  /** pageInfo. */
  function PageInfoOf(page: int, itemsPerPage: int, totalItems: int): PageInfo {
    var start := (page - 1) * itemsPerPage;
    PageInfo(if totalItems > 0 then start + 1 else 0, Min(totalItems, start + itemsPerPage), totalItems)
  }

  /**
   * For a page that starts inside the list, the figures name a non-empty run of
   * at most `itemsPerPage` items that ends inside the list.
   */
  lemma PageInfoRange(page: int, itemsPerPage: int, totalItems: int)
    requires page >= 1 && itemsPerPage >= 1 && (page - 1) * itemsPerPage < totalItems
    ensures var info := PageInfoOf(page, itemsPerPage, totalItems);
      1 <= info.startIndex <= info.endIndex <= totalItems &&
      info.endIndex - info.startIndex + 1 == Min(itemsPerPage, totalItems - (page - 1) * itemsPerPage)
  {
  }

  /** Consecutive full pages abut: page p+1 starts right after page p ends. */
  lemma {:induction false} PagesAbut(page: int, itemsPerPage: int, totalItems: int)
    requires page >= 1 && itemsPerPage >= 1 && page * itemsPerPage < totalItems
    ensures PageInfoOf(page + 1, itemsPerPage, totalItems).startIndex ==
            PageInfoOf(page, itemsPerPage, totalItems).endIndex + 1
  {
    assert (page - 1) * itemsPerPage + itemsPerPage == page * itemsPerPage;
  }

  /** The state of the hook; `totalItems` and `totalPages` are its inputs. */
  class Hook {
    var currentPage: int
    var itemsPerPage: int
    const totalItems: int
    const totalPages: int

    /** The current page stays a page that exists (page 1 when there is none). */
    predicate Valid()
      reads this
    {
      1 <= currentPage && (currentPage == 1 || currentPage <= totalPages)
    }

    /** usePagination: a missing input takes its default (6 per page, 0 items, 1 page, page 1). */
    constructor (initialItemsPerPage: Option<int>, totalItems: Option<int>, totalPages: Option<int>,
                 initialPage: Option<int>)
      ensures itemsPerPage == (if initialItemsPerPage.Some? then initialItemsPerPage.value else DefaultItemsPerPage)
      ensures this.totalItems == (if totalItems.Some? then totalItems.value else 0)
      ensures this.totalPages == (if totalPages.Some? then totalPages.value else 1)
      ensures currentPage == (if initialPage.Some? then initialPage.value else 1)
      ensures initialPage.None? ==> Valid()
    {
      itemsPerPage := if initialItemsPerPage.Some? then initialItemsPerPage.value else DefaultItemsPerPage;
      this.totalItems := if totalItems.Some? then totalItems.value else 0;
      this.totalPages := if totalPages.Some? then totalPages.value else 1;
      currentPage := if initialPage.Some? then initialPage.value else 1;
    }

    /** goToPage: only targets in [1, totalPages] are taken. */
    method GoToPage(page: int)
      modifies this
      ensures currentPage == if 1 <= page <= totalPages then page else old(currentPage)
      ensures itemsPerPage == old(itemsPerPage)
      ensures old(Valid()) ==> Valid()
    {
      if page >= 1 && page <= totalPages {
        currentPage := page;
      }
    }

    /** goToNextPage: acts only below the last page. */
    method GoToNextPage()
      modifies this
      ensures currentPage == if old(currentPage) < totalPages then old(currentPage) + 1 else old(currentPage)
      ensures itemsPerPage == old(itemsPerPage)
      ensures old(Valid()) ==> Valid()
    {
      if currentPage < totalPages {
        currentPage := currentPage + 1;
      }
    }

    /** goToPreviousPage: acts only above page 1. */
    method GoToPreviousPage()
      modifies this
      ensures currentPage == if old(currentPage) > 1 then old(currentPage) - 1 else old(currentPage)
      ensures itemsPerPage == old(itemsPerPage)
      ensures old(Valid()) ==> Valid()
    {
      if currentPage > 1 {
        currentPage := currentPage - 1;
      }
    }

    /** changeItemsPerPage: a new page size starts again at page 1. */
    method ChangeItemsPerPage(newItemsPerPage: int)
      modifies this
      ensures itemsPerPage == newItemsPerPage && currentPage == 1
      ensures Valid()
    {
      itemsPerPage := newItemsPerPage;
      currentPage := 1;
    }
  }
}
