/** Paging of mock lists (`generatePaginatedData` in src/mock/utils.ts). */
module Pagination {
  import opened Common
  import opened Builtins

  /** The page a request without `current` asks for. */
  const DefaultCurrent: int := 1

  /** The page size a request without `size` asks for. */
  const DefaultSize: int := 10

  /** The position where page `current` begins when pages hold `size`
      records, counted page by page from page 1, which begins at 0; it is the
      product `(current - 1) * size` (`PageStartIsProduct`). Page `current`
      ends where page `current + 1` begins. */
  function PageStart(current: int, size: int): (r: int)
    ensures 1 <= current && 0 <= size ==> 0 <= r
    ensures current < 1 && 0 < size ==> r < 0
    decreases if current < 1 then 1 - current else current - 1
  {
    if current == 1 then 0
    else if current > 1 then PageStart(current - 1, size) + size
    else PageStart(current + 1, size) - size
  }

  /** The page-by-page start is the source's `(current - 1) * size`. */
  lemma {:induction false} PageStartIsProduct(current: int, size: int)
    ensures PageStart(current, size) == (current - 1) * size
    decreases if current < 1 then 1 - current else current - 1
  {
    if current > 1 {
      PageStartIsProduct(current - 1, size);
      assert (current - 2) * size + size == (current - 1) * size;
    } else if current < 1 {
      PageStartIsProduct(current + 1, size);
      assert current * size - size == (current - 1) * size;
    }
  }

  /** Each page begins `size` positions after the one before it. */
  lemma PageStartStep(current: int, size: int)
    ensures PageStart(current + 1, size) == PageStart(current, size) + size
  {
  }

  /** Page `current` (counted from 1) of `data`, `size` records per page: the
      records from `PageStart(current, size)` up to the start of the next
      page, cut by `slice`. The page number and the page size are echoed back
      and `total` is the length of the whole list. Left out, the page number
      is 1 and the page size 10.

      Page numbers below 1 are passed to `slice` unchanged, so they follow its
      negative-index rule (see `PageZeroIsEmpty` and `NegativePageCountsFromEnd`). */
  function GeneratePaginatedData<T>(data: seq<T>, current: int := DefaultCurrent, size: int := DefaultSize): (r: PaginatedResponse<T>)
    ensures r.total == |data|
    ensures r.current == current && r.size == size
    ensures 0 <= size ==> |r.records| <= size
    ensures 1 <= current && 0 <= size ==>
              r.records == data[Min(PageStart(current, size), |data|)..Min(PageStart(current + 1, size), |data|)]
    ensures 1 <= current && 0 <= size && |data| <= PageStart(current, size) ==> r.records == []
    ensures forall x :: x in r.records ==> x in data
  {
    PageStartStep(current, size);
    var start := PageStart(current, size);
    var end := start + size;
    PaginatedResponse(Slice(data, start, end), current, size, |data|)
  }

  /** Called without a page number and a page size, it answers the first
      ten records. */
  lemma DefaultsArePageOneOfTen<T>(data: seq<T>)
    ensures GeneratePaginatedData(data) == PaginatedResponse(data[..Min(10, |data|)], 1, 10, |data|)
  {
  }

  /** Two consecutive pages are adjacent windows of the list: together they
      are the window that starts where the first begins and ends where the
      second ends, so they neither overlap nor leave a gap. */
  lemma AdjacentPages<T>(data: seq<T>, current: int, size: int)
    requires 1 <= current && 0 <= size
    ensures GeneratePaginatedData(data, current, size).records +
            GeneratePaginatedData(data, current + 1, size).records ==
            data[Min(PageStart(current, size), |data|)..Min(PageStart(current + 2, size), |data|)]
  {
    PageStartStep(current, size);
    PageStartStep(current + 1, size);
    var a, b, c := PageStart(current, size), PageStart(current + 1, size), PageStart(current + 2, size);
    assert GeneratePaginatedData(data, current, size).records == data[Min(a, |data|)..Min(b, |data|)];
    var next := current + 1;
    assert next + 1 == current + 2;
    assert GeneratePaginatedData(data, next, size).records == data[Min(b, |data|)..Min(c, |data|)];
    assert data[Min(a, |data|)..Min(b, |data|)] + data[Min(b, |data|)..Min(c, |data|)] ==
           data[Min(a, |data|)..Min(c, |data|)];
  }

  /** The records of pages 1 to `k`, one after the other. */
  function PagesUpTo<T>(data: seq<T>, size: nat, k: nat): seq<T>
  {
    if k == 0 then [] else PagesUpTo(data, size, k - 1) + GeneratePaginatedData(data, k, size).records
  }

  /** Reading pages 1 to `k` in turn visits the records before the start of
      page `k + 1` (the first `k * size`), each once and in order: no record
      is skipped or repeated between pages. */
  lemma {:induction false} PagesUpToIsPrefix<T>(data: seq<T>, size: nat, k: nat)
    ensures PagesUpTo(data, size, k) == data[..Min(PageStart(k + 1, size), |data|)]
  {
    if k > 0 {
      PagesUpToIsPrefix(data, size, k - 1);
      PageStartStep(k, size);
      var a, b := PageStart(k, size), PageStart(k + 1, size);
      assert data[..Min(a, |data|)] + data[Min(a, |data|)..Min(b, |data|)] == data[..Min(b, |data|)];
    }
  }

  /** Page 0 is always empty: its window ends at position 0. */
  lemma PageZeroIsEmpty<T>(data: seq<T>, size: int)
    ensures GeneratePaginatedData(data, 0, size).records == []
  {
  }

  /** `slice` with two negative positions reads both from the end. */
  lemma SliceBeforeStart<T>(data: seq<T>, start: int, end: int)
    requires start <= end < 0
    ensures Slice(data, start, end) == data[Max(|data| + start, 0)..Max(|data| + end, 0)]
  {
  }

  /** A page number below 0 does not give an empty page: `slice` reads its
      negative positions from the end of the list, so page -1 is the window
      of `size` records ending `size` records before the end. */
  lemma NegativePageCountsFromEnd<T>(data: seq<T>, current: int, size: int)
    requires current < 0 && 0 < size
    ensures GeneratePaginatedData(data, current, size).records ==
            data[Max(|data| + PageStart(current, size), 0)..Max(|data| + PageStart(current + 1, size), 0)]
  {
    PageStartStep(current, size);
    SliceBeforeStart(data, PageStart(current, size), PageStart(current + 1, size));
  }
}
