/** The page arithmetic of the listing queries. */
module Paging {
  import opened Common

  datatype Pagination = Pagination(page: int, limit: int, skip: int)

  function NormalizePagination(page: Option<int>, limit: Option<int>): Pagination {
    var normalizedPage := Max(1, if page.Some? then page.value else 1);
    var normalizedLimit := Min(100, Max(1, if limit.Some? then limit.value else 20));
    Pagination(normalizedPage, normalizedLimit, (normalizedPage - 1) * normalizedLimit)
  }

  /** `Math.ceil(total / limit)`. */
  function TotalPages(total: nat, limit: int): nat
    requires limit > 0
  {
    (total + limit - 1) / limit
  }

  /** The query's `.skip(skip).limit(limit)` on the sorted result. */
  function Fetch<T>(all: seq<T>, p: Pagination): seq<T>
    requires p.skip >= 0 && p.limit >= 0
  {
    all[Min(p.skip, |all|)..Min(p.skip + p.limit, |all|)]
  }

  lemma SkipNonNegative(page: Option<int>, limit: Option<int>)
    ensures NormalizePagination(page, limit).skip >= 0 && 1 <= NormalizePagination(page, limit).limit <= 100
  {
    var p := NormalizePagination(page, limit);
    assert p.page - 1 >= 0 && p.limit >= 1;
  }

  function Page<T>(all: seq<T>, page: int, limit: Option<int>): seq<T> {
    SkipNonNegative(Some(page), limit);
    Fetch(all, NormalizePagination(Some(page), limit))
  }

  /** The first `n` pages one after the other. */
  function FirstPages<T>(all: seq<T>, n: nat, limit: Option<int>): seq<T> {
    if n == 0 then [] else FirstPages(all, n - 1, limit) + Page(all, n, limit)
  }

  /** Page `page` is the slice between two multiples of the page size. */
  lemma PageSlice<T>(all: seq<T>, page: nat, limit: Option<int>)
    requires page >= 1
    ensures
      var size := NormalizePagination(None, limit).limit;
      && 0 <= (page - 1) * size <= page * size
      && Page(all, page, limit) == all[Min((page - 1) * size, |all|)..Min(page * size, |all|)]
  {
    var size := NormalizePagination(None, limit).limit;
    MultiplyLess(0, page - 1, size);
    assert (page - 1) * size + size == page * size;
  }

  lemma {:induction false} FirstPagesArePrefix<T>(all: seq<T>, n: nat, limit: Option<int>)
    ensures
      var size := NormalizePagination(None, limit).limit;
      n * size >= 0 && FirstPages(all, n, limit) == all[..Min(n * size, |all|)]
  {
    hide NormalizePagination, Page;
    if n > 0 {
      FirstPagesArePrefix(all, n - 1, limit);
      PageSlice(all, n, limit);
    }
  }

  /** A page has elements exactly when it is not past the last one. */
  lemma PageNonEmpty<T>(all: seq<T>, page: nat, limit: Option<int>)
    requires page >= 1
    ensures
      var size := NormalizePagination(None, limit).limit;
      size > 0 && (Page(all, page, limit) != [] <==> page <= TotalPages(|all|, size))
  {
    var size := NormalizePagination(None, limit).limit;
    SkipNonNegative(None, limit);
    hide NormalizePagination, Page, TotalPages;
    PageSlice(all, page, limit);
    LastPage(|all|, size, page);
    assert (page - 1) * size + size == page * size;
  }

  lemma LastPage(total: nat, size: int, page: nat)
    requires size > 0 && page >= 1
    ensures page <= TotalPages(total, size) <==> (page - 1) * size < total
  {
    var pages := TotalPages(total, size);
    var rest := (total + size - 1) % size;
    assert total + size - 1 == pages * size + rest && 0 <= rest < size;
    if page <= pages {
      assert (page - 1) * size <= (pages - 1) * size by { MultiplyLess(page - 1, pages - 1, size); }
      assert (pages - 1) * size == pages * size - size;
    } else {
      assert pages * size <= (page - 1) * size by { MultiplyLess(pages, page - 1, size); }
    }
  }

  lemma MultiplyLess(x: int, y: int, z: int)
    requires x <= y && z >= 0
    ensures x * z <= y * z
  {
  }

  lemma AllPages<T>(all: seq<T>, limit: Option<int>)
    ensures
      var size := NormalizePagination(None, limit).limit;
      size > 0 && FirstPages(all, TotalPages(|all|, size), limit) == all
  {
    var size := NormalizePagination(None, limit).limit;
    SkipNonNegative(None, limit);
    hide NormalizePagination, FirstPages, TotalPages;
    var pages := TotalPages(|all|, size);
    FirstPagesArePrefix(all, pages, limit);
    LastPage(|all|, size, pages + 1);
    assert all[..|all|] == all;
  }

  /** For every list and every requested limit, the pages 1 to totalPages concatenate to exactly
      the list, none of them is empty, and every later page is. */
  lemma PagesPartition<T>(all: seq<T>, limit: Option<int>)
    ensures
      var size := NormalizePagination(None, limit).limit;
      && size > 0
      && FirstPages(all, TotalPages(|all|, size), limit) == all
      && forall page :: page >= 1 ==> (Page(all, page, limit) != [] <==> page <= TotalPages(|all|, size))
  {
    hide FirstPages, Page, TotalPages, NormalizePagination;
    AllPages(all, limit);
    var size := NormalizePagination(None, limit).limit;
    forall page | page >= 1 ensures Page(all, page, limit) != [] <==> page <= TotalPages(|all|, size) {
      PageNonEmpty(all, page, limit);
    }
  }

  /** Missing requests mean page 1 and limit 20, out-of-range ones the nearest of page 1 and the limits
      1 and 100; what is in range is kept, and the skipped elements are those of the earlier pages. */
  lemma Clamped(page: Option<int>, limit: Option<int>)
    ensures
      var p := NormalizePagination(page, limit);
      && p.page == (if page == None || page.value < 1 then 1 else page.value)
      && p.limit == (if limit == None then 20 else if limit.value < 1 then 1
                     else if limit.value > 100 then 100 else limit.value)
      && p.skip == (p.page - 1) * p.limit
      && NormalizePagination(Some(p.page), Some(p.limit)) == p
  {
  }
}
