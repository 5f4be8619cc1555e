/**
 * The paging shared by the list pages: the page count, the slice shown for a
 * page, and the four pager buttons.
 */
module Pagination {

  /** `Math.max(1, Math.ceil(n / size))`. */
  function TotalPages(n: nat, size: nat): (t: nat)
    requires size > 0
    ensures t >= 1
    ensures n <= t * size
    ensures n == 0 ==> t == 1
    ensures n > 0 ==> (t - 1) * size < n
  {
    if n == 0 then 1 else (n + size - 1) / size
  }

  /** `xs.slice(start, end)`: negative bounds count from the end, and bounds are clamped to the length. */
  function Slice<T>(xs: seq<T>, start: int, end: int): (r: seq<T>)
    ensures 0 <= start <= end ==> |r| <= end - start
    ensures 0 <= start <= |xs| && start <= end <= |xs| ==> r == xs[start..end]
    ensures 0 <= start <= |xs| && |xs| <= end ==> r == xs[start..]
    ensures |xs| <= start ==> r == []
  {
    var from := if start < 0 then (if |xs| + start < 0 then 0 else |xs| + start)
                else if start < |xs| then start else |xs|;
    var to := if end < 0 then (if |xs| + end < 0 then 0 else |xs| + end)
              else if end < |xs| then end else |xs|;
    if from < to then xs[from..to] else []
  }

  /** The items shown on `page`, counting pages from 1. */
  function Page<T>(xs: seq<T>, page: int, size: nat): (r: seq<T>)
    requires size > 0
    ensures page >= 1 ==> |r| <= size
  {
    Slice(xs, (page - 1) * size, (page - 1) * size + size)
  }

  /** Pages 1 to `k` shown one after the other. */
  function Pages<T>(xs: seq<T>, size: nat, k: nat): seq<T>
    requires size > 0
  {
    if k == 0 then [] else Pages(xs, size, k - 1) + Page(xs, k, size)
  }

  function Min(a: int, b: int): int { if a < b then a else b }

  /** The items before position `a`, followed by the `size` items from `a`, are the items before `a + size`. */
  lemma NextSlice<T>(xs: seq<T>, a: nat, size: nat)
    ensures xs[..Min(a, |xs|)] + Slice(xs, a, a + size) == xs[..Min(a + size, |xs|)]
  {
    if a + size <= |xs| {
      assert xs[..a] + xs[a..a + size] == xs[..a + size];
    } else if a <= |xs| {
      assert xs[..a] + xs[a..] == xs[..|xs|];
    }
  }

  /** The first `k` pages are the first `k * size` items, or all of them. */
  lemma {:induction false} PagesPrefix<T>(xs: seq<T>, size: nat, k: nat)
    requires size > 0
    ensures Pages(xs, size, k) == xs[..Min(k * size, |xs|)]
  {
    if k > 0 {
      PagesPrefix(xs, size, k - 1);
      var lo: nat := (k - 1) * size;
      assert lo + size == k * size;
      assert Page(xs, k, size) == Slice(xs, lo, lo + size);
      NextSlice(xs, lo, size);
    }
  }

  /** Showing every page in order shows the whole list, each item once. */
  lemma AllPagesCover<T>(xs: seq<T>, size: nat)
    requires size > 0
    ensures Pages(xs, size, TotalPages(|xs|, size)) == xs
  {
    var t := TotalPages(|xs|, size);
    PagesPrefix(xs, size, t);
    assert xs[..|xs|] == xs;
  }

  /** A page past the last one is empty. */
  lemma PastLastPageEmpty<T>(xs: seq<T>, size: nat, page: int)
    requires size > 0 && page > TotalPages(|xs|, size)
    ensures Page(xs, page, size) == []
  {
    var t := TotalPages(|xs|, size);
    assert (page - 1) * size >= t * size by {
      assert page - 1 >= t;
    }
  }

  /** The « button. */
  function FirstPage(): int { 1 }

  /** The ‹ button: `Math.max(1, p - 1)`. */
  function PreviousPage(p: int): int { if p - 1 < 1 then 1 else p - 1 }

  /** The › button: `Math.min(totalPages, p + 1)`. */
  function NextPage(p: int, total: nat): int { if total < p + 1 then total else p + 1 }

  /** The » button. */
  function LastPage(total: nat): int { total }

  /** A page in `[1, total]`. */
  predicate InRange(p: int, total: nat) {
    1 <= p <= total
  }

  /** Every pager button keeps the page in range, and each moves by at most one page or to an end. */
  lemma PagerInRange(p: int, total: nat)
    requires InRange(p, total)
    ensures InRange(FirstPage(), total) && InRange(LastPage(total), total)
    ensures InRange(PreviousPage(p), total) && InRange(NextPage(p, total), total)
    ensures PreviousPage(p) == (if p == 1 then 1 else p - 1)
    ensures NextPage(p, total) == (if p == total then total else p + 1)
  {
  }
}
