/** The paging arithmetic the project listing relies on. The `Paging` class of
    the plugin API is not part of this model; what the listing uses of it is
    stated here as assumptions: `forPageIndex(page).withPageSize(size)
    .andTotal(total)` accepts only a page index and a page size of at least 1,
    `offset()` is `(page - 1) * size`, and `hasNextPage()` is
    `page * size < total`. */
module Pagination {
  import opened Ws

  datatype Paging = Paging(pageIndex: int, pageSize: int, total: int) {

    predicate Valid() {
      pageIndex >= 1 && pageSize >= 1 && total >= 0
    }

    /** The index of the first item of the page. */
    function Offset(): int {
      (pageIndex - 1) * pageSize
    }

    predicate HasNextPage() {
      pageIndex * pageSize < total
    }

    /** The number of pages needed for `total` items. */
    function Pages(): int
      requires pageSize >= 1
    {
      total / pageSize + if total % pageSize > 0 then 1 else 0
    }

    function Next(): Paging {
      Paging(pageIndex + 1, pageSize, total)
    }
  }

  /** forPageIndex(page).withPageSize(pageSize).andTotal(total) */
  function ForPageIndex(page: int, pageSize: int, total: int): (r: Result<Paging>)
    ensures r.Success? <==> page >= 1 && pageSize >= 1 && total >= 0
    ensures r.Success? ==> r.value.Valid() && r.value == Paging(page, pageSize, total)
    ensures r.Failure? ==> r.error == InvalidPaging
  {
    if page >= 1 && pageSize >= 1 && total >= 0 then Success(Paging(page, pageSize, total))
    else Failure(InvalidPaging)
  }

  lemma MulMonotonic(a: int, b: int, c: int)
    requires a <= b && c >= 0
    ensures a * c <= b * c
  {
    assert b * c - a * c == (b - a) * c;
  }

  lemma OffsetNonNegative(p: Paging)
    requires p.Valid()
    ensures 0 <= p.Offset()
  {
    MulMonotonic(0, p.pageIndex - 1, p.pageSize);
  }

  /** `page * size < total` is the same as "this page is not the last one". */
  lemma HasNextPageMeansMorePages(p: Paging)
    requires p.Valid()
    ensures p.HasNextPage() <==> p.pageIndex < p.Pages()
  {
    var q, r := p.total / p.pageSize, p.total % p.pageSize;
    assert p.total == q * p.pageSize + r && 0 <= r < p.pageSize;
    if p.pageIndex < p.Pages() {
      if p.pageIndex <= q - 1 {
        MulMonotonic(p.pageIndex, q - 1, p.pageSize);
        assert (q - 1) * p.pageSize == q * p.pageSize - p.pageSize;
      } else {
        assert r > 0 && p.pageIndex == q;
      }
    } else {
      if r == 0 {
        MulMonotonic(q, p.pageIndex, p.pageSize);
      } else {
        MulMonotonic(q + 1, p.pageIndex, p.pageSize);
        assert (q + 1) * p.pageSize == q * p.pageSize + p.pageSize;
      }
    }
  }

  /** When a list of `n` items is longer than the offset but no longer than one
      page, the page can only be the first: its offset is 0. */
  lemma SinglePageMeansFirstPage(p: Paging, n: int)
    requires p.Valid() && p.Offset() < n <= p.pageSize
    ensures p.pageIndex == 1 && p.Offset() == 0
  {
    if p.pageIndex >= 2 {
      MulMonotonic(1, p.pageIndex - 1, p.pageSize);
    }
  }

  /** The page window: the items of `list` from the page's offset, at most one
      page of them, clipped to the end of the list. */
  function Window<T>(list: seq<T>, p: Paging): seq<T>
    requires p.Valid()
  {
    OffsetNonNegative(p);
    var n := |list|;
    list[Min(p.Offset(), n)..Min(p.Offset() + p.pageSize, n)]
  }

  /** The window is the contiguous run of items that starts at the offset, it
      holds at most one page, and it is empty from the end of the list on. */
  lemma WindowShape<T>(list: seq<T>, p: Paging)
    requires p.Valid()
    ensures |Window(list, p)| <= p.pageSize
    ensures |list| <= p.Offset() <==> Window(list, p) == []
    ensures |list| > p.Offset() ==> |Window(list, p)| == Min(p.pageSize, |list| - p.Offset())
    ensures forall k :: 0 <= k < |Window(list, p)| ==> Window(list, p)[k] == list[p.Offset() + k]
  {
    OffsetNonNegative(p);
  }

  /** Every item of a list is on page `i / size + 1`, at position `i % size`. */
  lemma ItemOnItsPage<T>(list: seq<T>, pageSize: int, i: int)
    requires pageSize >= 1 && 0 <= i < |list|
    ensures var p := Paging(i / pageSize + 1, pageSize, |list|);
      p.Valid() && p.Offset() + i % pageSize == i
      && i % pageSize < |Window(list, p)| && Window(list, p)[i % pageSize] == list[i]
  {
    var p := Paging(i / pageSize + 1, pageSize, |list|);
    assert p.Offset() == (i / pageSize) * pageSize;
    assert p.Offset() + i % pageSize == i;
    WindowShape(list, p);
  }

  /** The listing's `more` flag: when the total is the number of listed items,
      there is a next page exactly when the next page's window is not empty. */
  lemma HasNextPageMeansNextWindowNonEmpty<T>(list: seq<T>, p: Paging)
    requires p.Valid() && p.total == |list|
    ensures p.HasNextPage() <==> Window(list, p.Next()) != []
  {
    assert p.Next().Offset() == p.pageIndex * p.pageSize;
    WindowShape(list, p.Next());
  }

  /** Five items with two per page: the third page holds the fifth item alone,
      and there is no page after it. */
  lemma FiveItemsThirdPageOfTwo<T>(list: seq<T>)
    requires |list| == 5
    ensures Window(list, Paging(3, 2, 5)) == [list[4]]
    ensures !Paging(3, 2, 5).HasNextPage()
  {
  }
}
