/**
 * The pager under the class list: up to five numbered links around the
 * current page, an ellipsis with a link to the last page, and the
 * Previous/Next buttons.
 */
module PaginationControls {
  import opened Wrappers

  function Min(a: int, b: int): int { if a <= b then a else b }

  /** The page number of link `i`. */
  function LinkNumber(i: int, current: int, total: int): int {
    if total <= 5 then i + 1
    else if current <= 3 then i + 1
    else if current >= total - 2 then total - 4 + i
    else current - 2 + i
  }

  /** The numbered links, `Math.min(5, totalPages)` of them. */
  function PageWindow(current: int, total: int): (w: seq<int>)
    ensures |w| == if total <= 0 then 0 else Min(5, total)
  {
    seq(if total <= 0 then 0 else Min(5, total), i => LinkNumber(i, current, total))
  }

  /**
   * On a page that exists, the links are consecutive ascending pages that all
   * exist, and the current page is among them.
   */
  lemma WindowSpec(current: int, total: int)
    requires 1 <= current <= total
    ensures var w := PageWindow(current, total);
      |w| == Min(5, total) &&
      (forall i :: 0 <= i < |w| ==> w[i] == w[0] + i) &&
      1 <= w[0] && w[|w| - 1] <= total &&
      current in w
  {
    var w := PageWindow(current, total);
    var k := current - w[0];
    assert 0 <= k < |w| && w[k] == current;
  }

  /** Where the window sits. */
  lemma WindowPosition(current: int, total: int)
    requires 1 <= current <= total
    ensures total <= 5 || current <= 3 ==> PageWindow(current, total) == seq(Min(5, total), i => i + 1)
    ensures total > 5 && current > 3 && current >= total - 2 ==>
      PageWindow(current, total) == [total - 4, total - 3, total - 2, total - 1, total]
    ensures total > 5 && 3 < current < total - 2 ==>
      PageWindow(current, total) == [current - 2, current - 1, current, current + 1, current + 2]
  {
  }

  /** The rendered pager, or nothing when there is at most one page. */
  datatype Pager = Pager(links: seq<int>, lastLink: bool, previousInert: bool, nextInert: bool)

  function Render(current: int, total: int): (p: Option<Pager>)
    ensures p.None? <==> total <= 1
    ensures p.Some? ==> p.value.links == PageWindow(current, total)
    ensures p.Some? ==> (p.value.lastLink <==> total > 5 && current < total - 2)
    ensures p.Some? ==> (p.value.previousInert <==> current == 1) && (p.value.nextInert <==> current == total)
  {
    if total <= 1 then None
    else Some(Pager(PageWindow(current, total), total > 5 && current < total - 2, current == 1, current == total))
  }

  /**
   * On a page that exists, the ellipsis and last-page link appear exactly when
   * the window does not already show the last page, and an arrow is inert
   * exactly when the page it would open does not exist.
   */
  lemma RenderLinks(current: int, total: int)
    requires 1 <= current <= total && total > 1
    ensures var p := Render(current, total).value;
      (p.lastLink <==> total !in p.links) &&
      (p.previousInert <==> current - 1 < 1) && (p.nextInert <==> current + 1 > total)
  {
    WindowPosition(current, total);
    var w := PageWindow(current, total);
    if total > 5 && current <= 3 {
      assert forall x :: x in w ==> x <= 5;
    } else if total > 5 && current < total - 2 {
      assert forall x :: x in w ==> x <= current + 2;
    } else {
      assert w[|w| - 1] == total;
    }
  }
}
