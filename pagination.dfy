/**
 * Paging as the tables and the receipt list do it: ten rows a page, at
 * least one page, the current index clamped to the last page, `prev` and
 * `next` kept in range, and a window of up to five page buttons.
 */
module Pagination {
  const PageSize := 10

  /** `Math.max(0, i - 1)`. */
  function Prev(i: int): (r: int)
    ensures r >= 0
    ensures i >= 1 ==> r == i - 1
    ensures i < 1 ==> r == 0
  {
    if i - 1 < 0 then 0 else i - 1
  }

  /** `Math.min(pageCount - 1, i + 1)`. */
  function Next(i: int, pageCount: int): (r: int)
    ensures r <= pageCount - 1
    ensures i + 1 <= pageCount - 1 ==> r == i + 1
    ensures i + 1 > pageCount - 1 ==> r == pageCount - 1
  {
    if pageCount - 1 < i + 1 then pageCount - 1 else i + 1
  }

  /** From a page in range, every navigation lands on a page in range. */
  lemma NavigationStaysInRange(i: int, pageCount: int)
    requires 0 <= i < pageCount
    ensures 0 <= Prev(i) < pageCount && 0 <= Next(i, pageCount) < pageCount
    ensures 0 <= pageCount - 1 < pageCount
  {
  }

  /** The consecutive pages `lo, lo + 1, …, hi`. */
  function Range(lo: int, hi: int): (r: seq<int>)
    ensures lo > hi ==> r == []
    ensures lo <= hi ==> |r| == hi - lo + 1
    ensures forall k :: 0 <= k < |r| ==> r[k] == lo + k
    decreases hi - lo
  {
    if lo > hi then [] else Range(lo, hi - 1) + [hi]
  }

  /** The first and last button of the window around page `i`. */
  function WindowStart(i: int): int { if i - 2 < 0 then 0 else i - 2 }
  function WindowEnd(i: int, pageCount: int): int { if pageCount - 1 < i + 2 then pageCount - 1 else i + 2 }

  /** The `for` loop that pushes the page buttons. */
  method PageWindow(i: int, pageCount: int) returns (pages: seq<int>)
    ensures pages == Range(WindowStart(i), WindowEnd(i, pageCount))
  {
    pages := [];
    var start := WindowStart(i);
    var end := WindowEnd(i, pageCount);
    var p := start;
    while p <= end
      invariant start <= p
      invariant if start <= end then p <= end + 1 else p == start
      invariant pages == Range(start, p - 1)
      decreases end - p
    {
      pages := pages + [p];
      p := p + 1;
    }
  }

  /** At most five buttons, all naming existing pages, and the current page among them. */
  lemma WindowBounds(i: int, pageCount: int)
    ensures |Range(WindowStart(i), WindowEnd(i, pageCount))| <= 5
    ensures forall p :: p in Range(WindowStart(i), WindowEnd(i, pageCount)) ==> 0 <= p <= pageCount - 1
    ensures 0 <= i < pageCount ==> i in Range(WindowStart(i), WindowEnd(i, pageCount))
  {
    var w := Range(WindowStart(i), WindowEnd(i, pageCount));
    if 0 <= i < pageCount {
      assert w[i - WindowStart(i)] == i;
    }
  }

  /** `Math.max(1, Math.ceil(n / pageSize))`. */
  function PageCount(n: nat): (r: nat)
    ensures r >= 1
    ensures n == 0 ==> r == 1
    ensures n > 0 ==> (r - 1) * PageSize < n <= r * PageSize
  {
    if n == 0 then 1 else (n + PageSize - 1) / PageSize
  }

  /** `Math.min(pageIndex, pageCount - 1)`. */
  function CurrentPage(pageIndex: nat, pageCount: nat): (r: nat)
    requires pageCount >= 1
    ensures r < pageCount
    ensures pageIndex < pageCount ==> r == pageIndex
  {
    if pageIndex < pageCount - 1 then pageIndex else pageCount - 1
  }

  /** `rows.slice(a, b)` for non-negative bounds: both are clipped to the length. */
  function Slice<T>(rows: seq<T>, a: nat, b: nat): (r: seq<T>)
    ensures a <= b && b <= |rows| ==> r == rows[a..b]
    ensures |r| <= if a <= b then b - a else 0
  {
    var lo := if a < |rows| then a else |rows|;
    var hi := if b < lo then lo else if b < |rows| then b else |rows|;
    rows[lo..hi]
  }

  /** The rows of page `i`: at most ten, consecutive, in order. */
  function PageRows<T>(rows: seq<T>, i: nat): (r: seq<T>)
    ensures |r| <= PageSize
    ensures (i + 1) * PageSize <= |rows| ==> r == rows[i * PageSize..(i + 1) * PageSize]
    ensures i * PageSize >= |rows| ==> r == []
    ensures i * PageSize <= |rows| ==> r == rows[i * PageSize..if (i + 1) * PageSize <= |rows| then (i + 1) * PageSize else |rows|]
  {
    Slice(rows, i * PageSize, i * PageSize + PageSize)
  }

  /** Pages `0 … k - 1` one after the other. */
  function Pages<T>(rows: seq<T>, k: nat): seq<T>
  {
    if k == 0 then [] else Pages(rows, k - 1) + PageRows(rows, k - 1)
  }

  lemma {:induction false} PagesPrefix<T>(rows: seq<T>, k: nat)
    ensures Pages(rows, k) == rows[..if k * PageSize < |rows| then k * PageSize else |rows|]
  {
    if k > 0 {
      PagesPrefix(rows, k - 1);
    }
  }

  /** Reading every page in turn gives every row exactly once, in order. */
  lemma PagesCoverRows<T>(rows: seq<T>)
    ensures Pages(rows, PageCount(|rows|)) == rows
    ensures |rows| == 0 ==> PageCount(|rows|) == 1 && PageRows(rows, 0) == []
  {
    PagesPrefix(rows, PageCount(|rows|));
  }
}
