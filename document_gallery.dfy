/**
 * The paged image viewer of a document: the server returns the page images
 * of one preview page at a time; the viewer moves between images and pages.
 */
module DocumentGallery {
  import opened Wrappers

  /** One preview response: the page's images, the total image count and the page size. */
  datatype Preview = Preview(total: nat, limit: nat, images: Option<seq<string>>)

  /** A position: the preview page (from 1) and the image index within it. */
  datatype View = View(page: int, index: int)

  const DefaultItemsPerPage: int := 5

  /** `Math.ceil(total / limit)` for a positive limit. */
  function CeilDiv(total: nat, limit: nat): (r: nat)
    requires limit > 0
    ensures (r - 1) * limit < total <= r * limit || (r == 0 && total == 0)
  {
    (total + limit - 1) / limit
  }

  /** The number of preview pages; 0 without a preview. */
  function TotalPages(preview: Option<Preview>): nat {
    if preview.Some? && preview.value.limit > 0 then CeilDiv(preview.value.total, preview.value.limit) else 0
  }

  /** nextImage: next image of the page, else first image of the next page, else stay. */
  function NextView(v: View, preview: Option<Preview>): View {
    if preview.None? || preview.value.images.None? then v
    else if v.index < |preview.value.images.value| - 1 then v.(index := v.index + 1)
    else if v.page < TotalPages(preview) then View(v.page + 1, 0)
    else v
  }

  /** prevImage: previous image of the page, else last slot of the previous page, else stay. */
  function PrevView(v: View, preview: Option<Preview>, itemsPerPage: int): View {
    if preview.None? || preview.value.images.None? then v
    else if v.index > 0 then v.(index := v.index - 1)
    else if v.page > 1 then View(v.page - 1, itemsPerPage - 1)
    else v
  }

  /** The 1-based number of the shown image in the whole document. */
  function AbsoluteIndex(v: View, itemsPerPage: int): int {
    (v.page - 1) * itemsPerPage + v.index + 1
  }

  predicate PrevDisabled(v: View) { v.page == 1 && v.index == 0 }

  predicate NextDisabled(v: View, preview: Preview) {
    preview.images.Some? && v.page == TotalPages(Some(preview)) && v.index == |preview.images.value| - 1
  }

  /** Within a page, Next then Previous comes back to the same image. */
  lemma NextPrevInPage(v: View, preview: Option<Preview>, itemsPerPage: int)
    requires preview.Some? && preview.value.images.Some?
    requires 0 <= v.index < |preview.value.images.value| - 1
    ensures PrevView(NextView(v, preview), preview, itemsPerPage) == v
    ensures AbsoluteIndex(NextView(v, preview), itemsPerPage) == AbsoluteIndex(v, itemsPerPage) + 1
  {
  }

  /**
   * Crossing a page boundary forward lands on image 0 of the next page, and
   * the image number advances by one exactly when the page left was full.
   */
  lemma NextAcrossPage(v: View, preview: Option<Preview>, itemsPerPage: int)
    requires preview.Some? && preview.value.images.Some?
    requires v.index == |preview.value.images.value| - 1 && v.page < TotalPages(preview)
    ensures NextView(v, preview) == View(v.page + 1, 0)
    ensures AbsoluteIndex(NextView(v, preview), itemsPerPage) == AbsoluteIndex(v, itemsPerPage) + 1
            <==> |preview.value.images.value| == itemsPerPage
  {
  }

  /** A disabled arrow would not move anyway. */
  lemma DisabledArrowsStay(v: View, preview: Preview, itemsPerPage: int)
    ensures PrevDisabled(v) ==> PrevView(v, Some(preview), itemsPerPage) == v
    ensures NextDisabled(v, preview) ==> NextView(v, Some(preview)) == v
  {
  }

  /** From a position inside the document, an enabled arrow always moves. */
  lemma EnabledArrowsMove(v: View, preview: Preview, itemsPerPage: int)
    requires preview.images.Some? && 1 <= v.page <= TotalPages(Some(preview))
    requires 0 <= v.index < |preview.images.value|
    ensures !PrevDisabled(v) ==> PrevView(v, Some(preview), itemsPerPage) != v
    ensures !NextDisabled(v, preview) ==> NextView(v, Some(preview)) != v
  {
  }

  class Gallery {
    const itemsPerPage: int
    var currentPage: int
    var currentImageIndex: int
    var zoom: real

    /** The viewer opens on page 1, image 0, at zoom 1; the page size defaults to 5. */
    constructor (itemsPerPage: Option<int>)
      ensures this.itemsPerPage == if itemsPerPage.Some? then itemsPerPage.value else DefaultItemsPerPage
      ensures currentPage == 1 && currentImageIndex == 0 && zoom == 1.0
    {
      this.itemsPerPage := if itemsPerPage.Some? then itemsPerPage.value else DefaultItemsPerPage;
      currentPage, currentImageIndex, zoom := 1, 0, 1.0;
    }

    function Current(): View
      reads this
    {
      View(currentPage, currentImageIndex)
    }

    /** nextImage; the zoom is reset whenever images are loaded. */
    method NextImage(preview: Option<Preview>)
      modifies this
      ensures Current() == NextView(old(Current()), preview)
      ensures zoom == if preview.None? || preview.value.images.None? then old(zoom) else 1.0
    {
      if preview.None? || preview.value.images.None? {
        return;
      }
      var images := preview.value.images.value;
      if currentImageIndex < |images| - 1 {
        currentImageIndex := currentImageIndex + 1;
      } else if currentPage < TotalPages(preview) {
        currentPage := currentPage + 1;
        currentImageIndex := 0;
      }
      zoom := 1.0;
    }

    /** prevImage; stepping back a page lands on that page's last slot. */
    method PrevImage(preview: Option<Preview>)
      modifies this
      ensures Current() == PrevView(old(Current()), preview, itemsPerPage)
      ensures zoom == if preview.None? || preview.value.images.None? then old(zoom) else 1.0
    {
      if preview.None? || preview.value.images.None? {
        return;
      }
      if currentImageIndex > 0 {
        currentImageIndex := currentImageIndex - 1;
      } else if currentPage > 1 {
        currentPage := currentPage - 1;
        currentImageIndex := itemsPerPage - 1;
      }
      zoom := 1.0;
    }

    method GoToFirstPage()
      modifies this
      ensures Current() == View(1, 0) && zoom == 1.0
    {
      currentPage, currentImageIndex, zoom := 1, 0, 1.0;
    }

    method GoToLastPage(preview: Option<Preview>)
      modifies this
      ensures Current() == View(TotalPages(preview), 0) && zoom == 1.0
    {
      currentPage, currentImageIndex, zoom := TotalPages(preview), 0, 1.0;
    }

    /** The Previous page button: one page back, never below 1, first image. */
    method PreviousPage()
      modifies this
      ensures currentPage == if old(currentPage) - 1 > 1 then old(currentPage) - 1 else 1
      ensures currentPage >= 1
      ensures currentImageIndex == 0 && zoom == 1.0
    {
      currentPage := if currentPage - 1 > 1 then currentPage - 1 else 1;
      currentImageIndex, zoom := 0, 1.0;
    }

    /** The Next page button: one page on, never above the last page, first image. */
    method NextPage(preview: Option<Preview>)
      modifies this
      ensures currentPage == if old(currentPage) + 1 < TotalPages(preview) then old(currentPage) + 1 else TotalPages(preview)
      ensures currentPage <= TotalPages(preview)
      ensures currentImageIndex == 0 && zoom == 1.0
    {
      var total := TotalPages(preview);
      currentPage := if currentPage + 1 < total then currentPage + 1 else total;
      currentImageIndex, zoom := 0, 1.0;
    }
  }
}
