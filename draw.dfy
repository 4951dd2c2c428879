/** The numbers and tokens that the widget's draw callback computes for screen
    readers (js/index.js, `datatableDrawCallback`): the item range announced on
    a numbered pagination button, and the `aria-sort` token of the sorted column. */
module DrawCallback {

  /** The first and last item numbers announced on the button of page `pageNum`
      (counted from 1), with `itemsPerPage` items a page and `totalCount` items in
      all: the page's nominal range, its last item clamped to the total. */
  function PageRange(pageNum: int, itemsPerPage: int, totalCount: int): (r: (int, int))
    ensures r.0 == (pageNum - 1) * itemsPerPage + 1
    ensures r.1 <= totalCount && r.1 <= r.0 + itemsPerPage - 1
    ensures r.1 == totalCount || r.1 == r.0 + itemsPerPage - 1
  {
    var first := (pageNum - 1) * itemsPerPage + 1;
    var last := first + itemsPerPage - 1;
    (first, if last > totalCount then totalCount else last)
  }

  /** A page whose first item exists announces between one and `itemsPerPage` items. */
  lemma PageSize(pageNum: int, itemsPerPage: int, totalCount: int)
    requires 1 <= itemsPerPage
    requires PageRange(pageNum, itemsPerPage, totalCount).0 <= totalCount
    ensures var (first, last) := PageRange(pageNum, itemsPerPage, totalCount);
      1 <= last - first + 1 <= itemsPerPage
  {
  }

  /** Neighbouring pages leave no gap and do not overlap: when page `pageNum + 1`
      has a first item, page `pageNum` ends on the item just before it. */
  lemma {:induction false} ConsecutivePages(pageNum: int, itemsPerPage: int, totalCount: int)
    requires 1 <= itemsPerPage
    requires PageRange(pageNum + 1, itemsPerPage, totalCount).0 <= totalCount
    ensures PageRange(pageNum, itemsPerPage, totalCount).1 + 1 == PageRange(pageNum + 1, itemsPerPage, totalCount).0
  {
    assert pageNum * itemsPerPage == (pageNum - 1) * itemsPerPage + itemsPerPage;
  }

  /** Pages 1 to `pageNum` together announce the items 1 to the last item of page
      `pageNum`, each exactly once, as long as every one of those pages has a first item. */
  lemma {:induction false} PagesCoverPrefix(pageNum: int, itemsPerPage: int, totalCount: int)
    requires 1 <= pageNum && 1 <= itemsPerPage
    requires PageRange(pageNum, itemsPerPage, totalCount).0 <= totalCount
    ensures PageRange(1, itemsPerPage, totalCount).0 == 1
    ensures forall q :: 1 <= q < pageNum ==>
      PageRange(q, itemsPerPage, totalCount).1 + 1 == PageRange(q + 1, itemsPerPage, totalCount).0
  {
    forall q | 1 <= q < pageNum
      ensures PageRange(q, itemsPerPage, totalCount).1 + 1 == PageRange(q + 1, itemsPerPage, totalCount).0
    {
      MulMonotone(q, pageNum - 1, itemsPerPage);
      ConsecutivePages(q, itemsPerPage, totalCount);
    }
  }

  lemma {:induction false} MulMonotone(a: int, b: int, c: nat)
    requires a <= b
    ensures a * c <= b * c
    decreases b - a
  {
    if a < b {
      MulMonotone(a, b - 1, c);
      assert b * c == (b - 1) * c + c;
    }
  }

  /** The `aria-sort` value for the widget's sort direction of the first ordering
      column: "asc" and "desc" map to their ARIA tokens, anything else to "other". */
  function AriaSort(direction: string): (token: string)
    ensures token == "ascending" <==> direction == "asc"
    ensures token == "descending" <==> direction == "desc"
    ensures token == "other" <==> direction != "asc" && direction != "desc"
  {
    if direction == "asc" then "ascending" else if direction == "desc" then "descending" else "other"
  }
}
