/** The page cut and the `pagination` object of the list routes. */
module Pagination {
  import opened Seqs
  import opened Ordering

  datatype PageInfo = PageInfo(page: int, limit: int, total: nat, totalPages: nat)

  /** The success body of a list route: `{ data, pagination }`. */
  datatype ListResponse<T> = ListResponse(data: seq<T>, pagination: PageInfo)

  /** `Math.ceil(total / limit)` for a positive limit: the fewest pages of `limit` items that hold `total` items. */
  function TotalPages(total: nat, limit: int): (r: nat)
    requires limit >= 1
    ensures total <= r * limit
    ensures r == 0 || (r - 1) * limit < total
  {
    var r := (total + limit - 1) / limit;
    assert r * limit <= total + limit - 1 < r * limit + limit;
    r
  }

  /** `startIndex = (page - 1) * limit`. */
  function PageStart(page: int, limit: int): (r: int)
    ensures page >= 1 && limit >= 0 ==> r >= 0
  {
    (page - 1) * limit
  }

  /** `filteredData.slice(startIndex, endIndex)` with `endIndex = startIndex + limit`. */
  function PageOf<T>(s: seq<T>, page: int, limit: int): seq<T> {
    JsSlice(s, PageStart(page, limit), PageStart(page, limit) + limit)
  }

  /** The response of a list route for the already filtered and sorted list `s`. */
  function Paginate<T>(s: seq<T>, page: int, limit: int): (r: ListResponse<T>)
    requires limit >= 1
    ensures |r.data| <= limit
    ensures r.pagination.total == |s| && r.pagination.page == page && r.pagination.limit == limit
    ensures r.pagination.totalPages == TotalPages(|s|, limit)
  {
    ListResponse(PageOf(s, page, limit), PageInfo(page, limit, |s|, TotalPages(|s|, limit)))
  }

  function Min(a: int, b: int): int {
    if a <= b then a else b
  }

  lemma MulMonotonic(a: int, b: int, c: nat)
    requires a <= b
    ensures a * c <= b * c
  {
  }

  /** For a page number of at least one, the page is the contiguous run of the list that starts at `startIndex`. */
  lemma PageContents<T>(s: seq<T>, page: int, limit: int)
    requires page >= 1 && limit >= 1
    ensures PageStart(page, limit) >= |s| ==> PageOf(s, page, limit) == []
    ensures PageStart(page, limit) < |s| ==>
            PageOf(s, page, limit) == s[PageStart(page, limit)..Min(PageStart(page, limit) + limit, |s|)]
  {
    MulMonotonic(0, page - 1, limit);
  }

  /** A page of a sorted list is sorted. */
  lemma PageOfSortedIsSorted<T>(s: seq<T>, page: int, limit: int, key: T -> Key, ascending: bool)
    requires SortedBy(s, key, ascending)
    ensures SortedBy(PageOf(s, page, limit), key, ascending)
  {
    var a := SliceIndex(PageStart(page, limit), |s|);
    var b := SliceIndex(PageStart(page, limit) + limit, |s|);
    if a < b {
      SortedSlice(s, a, b, key, ascending);
    }
  }

  /** A page past the last one is empty, whatever the list holds. */
  lemma PagePastEndIsEmpty<T>(s: seq<T>, page: int, limit: int)
    requires limit >= 1 && page > TotalPages(|s|, limit)
    ensures PageOf(s, page, limit) == []
  {
    MulMonotonic(TotalPages(|s|, limit), page - 1, limit);
    PageContents(s, page, limit);
  }

  /** Every page from the first to the last holds at least one item. */
  lemma PageInRangeIsNonEmpty<T>(s: seq<T>, page: int, limit: int)
    requires limit >= 1 && 1 <= page <= TotalPages(|s|, limit)
    ensures PageOf(s, page, limit) != []
  {
    MulMonotonic(page - 1, TotalPages(|s|, limit) - 1, limit);
    PageContents(s, page, limit);
  }

  /** What `Paginate` answers for a page number of at least one. */
  lemma PaginateContents<T>(s: seq<T>, page: int, limit: int)
    requires page >= 1 && limit >= 1
    ensures PageStart(page, limit) >= |s| ==> Paginate(s, page, limit).data == []
    ensures PageStart(page, limit) < |s| ==>
            Paginate(s, page, limit).data == s[PageStart(page, limit)..Min(PageStart(page, limit) + limit, |s|)]
    ensures page > Paginate(s, page, limit).pagination.totalPages ==> Paginate(s, page, limit).data == []
  {
    PageContents(s, page, limit);
    if page > TotalPages(|s|, limit) {
      PagePastEndIsEmpty(s, page, limit);
    }
  }

  /** Pages `1..k` read one after another. */
  function FirstPages<T>(s: seq<T>, limit: int, k: nat): seq<T> {
    if k == 0 then [] else FirstPages(s, limit, k - 1) + PageOf(s, k, limit)
  }

  /** Page `k` starts where the first `k - 1` pages end, and page `k + 1` starts `limit` later. */
  lemma PageStartStep(k: nat, limit: int)
    requires k > 0 && limit >= 1
    ensures PageStart(k, limit) == (k - 1) * limit >= 0
    ensures PageStart(k, limit) + limit == k * limit
  {
    MulMonotonic(0, k - 1, limit);
  }

  /** Appending the run that starts at `a` to the prefix ending at `a` extends the prefix by that run. */
  lemma PrefixThenRun<T>(s: seq<T>, a: nat, b: nat, run: seq<T>)
    requires a <= b
    requires a >= |s| ==> run == []
    requires a < |s| ==> run == s[a..Min(b, |s|)]
    ensures s[..Min(a, |s|)] + run == s[..Min(b, |s|)]
  {
    if a < |s| {
      assert s[..Min(b, |s|)] == s[..a] + s[a..Min(b, |s|)];
    }
  }

  lemma {:induction false} FirstPagesArePrefix<T>(s: seq<T>, limit: int, k: nat)
    requires limit >= 1
    ensures FirstPages(s, limit, k) == s[..Min(k * limit, |s|)]
  {
    if k > 0 {
      FirstPagesArePrefix(s, limit, k - 1);
      PageStartStep(k, limit);
      PageContents(s, k, limit);
      PrefixThenRun(s, PageStart(k, limit), k * limit, PageOf(s, k, limit));
    }
  }

  /** Reading every page from the first to the last gives back the whole list, in order, each item once. */
  lemma PagesCoverList<T>(s: seq<T>, limit: int)
    requires limit >= 1
    ensures FirstPages(s, limit, TotalPages(|s|, limit)) == s
  {
    FirstPagesArePrefix(s, limit, TotalPages(|s|, limit));
  }
}
