/**
 * Page arithmetic shared by the screens: the page count, clamping, the page
 * slice (with JavaScript's `slice` semantics) and the 5-page pager window.
 */
module Paging {

  function Max(a: int, b: int): int { if a >= b then a else b }
  function Min(a: int, b: int): int { if a <= b then a else b }

  /** `Math.ceil(n / per)`: the fewest pages of `per` rows that hold `n` rows. */
  function CeilDiv(n: nat, per: nat): (q: nat)
    requires per > 0
    ensures n <= q * per
    ensures q == 0 || (q - 1) * per < n
  {
    var q := (n + per - 1) / per;
    assert q * per + (n + per - 1) % per == n + per - 1;
    q
  }

  /** `Math.max(1, Math.ceil(n / per))`: at least one page, and no page more than `n` rows need. */
  function TotalPages(n: nat, per: nat): (t: int)
    requires per > 0
    ensures t >= 1
    ensures n <= t * per
    ensures n == 0 ==> t == 1
    ensures n > 0 ==> (t - 1) * per < n
  {
    Max(1, CeilDiv(n, per))
  }

  /** `Math.min(Math.max(1, page), Math.max(1, total))`. */
  function ClampPage(page: int, total: int): (r: int)
    ensures 1 <= r <= Max(1, total)
    ensures 1 <= page <= total ==> r == page
    ensures page < 1 ==> r == 1
    ensures page > Max(1, total) ==> r == Max(1, total)
  {
    Min(Max(1, page), Max(1, total))
  }

  /** How `Array.prototype.slice` resolves a possibly negative index against a length. */
  function SliceIndex(i: int, len: nat): (r: nat)
    ensures r <= len
    ensures 0 <= i <= len ==> r == i
  {
    if i < 0 then (if len + i < 0 then 0 else len + i) else if i > len then len else i
  }

  /** `s.slice(start, end)`. */
  function JsSlice<T>(s: seq<T>, start: int, end: int): seq<T> {
    var from := SliceIndex(start, |s|);
    var to := SliceIndex(end, |s|);
    if from < to then s[from..to] else []
  }

  /** The `paginatedData` getter: the slice for `page` when pages hold `per` rows. */
  function Page<T>(s: seq<T>, page: int, per: nat): seq<T> {
    JsSlice(s, (page - 1) * per, (page - 1) * per + per)
  }

  /** A page from 1 on is the run of at most `per` rows that starts after the earlier pages. */
  lemma PageOfPositive<T>(s: seq<T>, page: int, per: nat)
    requires page >= 1
    ensures Page(s, page, per) == s[Min((page - 1) * per, |s|)..Min(page * per, |s|)]
    ensures |Page(s, page, per)| <= per
  {
    assert (page - 1) * per + per == page * per;
    assert (page - 1) * per >= 0;
  }

  /** Whatever the page number, a page holds at most `per` rows, all of them rows of `s`. */
  lemma PageShape<T>(s: seq<T>, page: int, per: nat)
    ensures |Page(s, page, per)| <= per
    ensures forall x :: x in Page(s, page, per) ==> x in s
  {
    var a := (page - 1) * per;
    var from := SliceIndex(a, |s|);
    var to := SliceIndex(a + per, |s|);
    var p := Page(s, page, per);
    if from < to {
      assert p == s[from..to];
      assert forall k :: 0 <= k < |p| ==> p[k] == s[from + k];
    }
  }

  /** The first `k` pages, one after the other. */
  function PagesUpTo<T>(s: seq<T>, per: nat, k: nat): seq<T> {
    if k == 0 then [] else PagesUpTo(s, per, k - 1) + Page(s, k, per)
  }

  lemma StepProduct(k: nat, per: nat)
    requires k > 0
    ensures 0 <= (k - 1) * per <= k * per == (k - 1) * per + per
  {
  }

  lemma {:induction false} PagesUpToPrefix<T>(s: seq<T>, per: nat, k: nat)
    ensures PagesUpTo(s, per, k) == s[..Min(k * per, |s|)]
  {
    if k > 0 {
      PagesUpToPrefix(s, per, k - 1);
      PageOfPositive(s, k, per);
      StepProduct(k, per);
      var lo, hi := Min((k - 1) * per, |s|), Min(k * per, |s|);
      var prev, page := PagesUpTo(s, per, k - 1), Page(s, k, per);
      assert prev == s[..lo] && page == s[lo..hi];
      assert PagesUpTo(s, per, k) == prev + page;
      assert s[..lo] + s[lo..hi] == s[..hi];
    }
  }

  /** The pages 1..TotalPages tile the rows: read one after the other they give the rows back. */
  lemma PagesTile<T>(s: seq<T>, per: nat)
    requires per > 0
    ensures PagesUpTo(s, per, TotalPages(|s|, per)) == s
  {
    PagesUpToPrefix(s, per, TotalPages(|s|, per));
  }

  /** `Array.from({ length: n }, (_, i) => i + 1)`; a length below zero counts as zero. */
  function PageRange(n: int): (r: seq<int>)
    ensures |r| == Max(0, n)
    ensures forall i :: 0 <= i < |r| ==> r[i] == i + 1
  {
    if n <= 0 then [] else seq(n, i => i + 1)
  }

  /**
   * The pager window: all pages when there are at most five, otherwise the five
   * consecutive pages centred on the current page and moved inside [1, total].
   * `totalPages` of 0 counts as 1 (`this.totalPages || 1`) and the current page
   * is first clamped into [1, total].
   */
  function PagerWindow(totalPages: int, currentPage: int): seq<int> {
    var total := if totalPages == 0 then 1 else totalPages;
    var current := Min(Max(currentPage, 1), total);
    if total <= 5 then PageRange(total)
    else
      var first := Min(Max(current - 2, 1), total - 4);
      seq(5, i => first + i)
  }

  /**
   * What the pager shows: a run of consecutive pages inside [1, total], five of them
   * (or all when there are fewer), that contains the clamped current page.
   */
  lemma PagerWindowShape(totalPages: int, currentPage: int)
    requires totalPages >= 1
    ensures var w := PagerWindow(totalPages, currentPage);
      && |w| == Min(totalPages, 5)
      && (forall i :: 0 <= i < |w| ==> 1 <= w[i] <= totalPages)
      && (forall i :: 0 < i < |w| ==> w[i] == w[i - 1] + 1)
      && Min(Max(currentPage, 1), totalPages) in w
  {
    var w := PagerWindow(totalPages, currentPage);
    var current := Min(Max(currentPage, 1), totalPages);
    if totalPages <= 5 {
      assert w[current - 1] == current;
    } else {
      assert w[current - w[0]] == current;
    }
  }

  /**
   * `visiblePages` of the history, location and forecast-element screens: the
   * window end is `current + 2`, then both ends are corrected.
   */
  method CentredPages(totalPages: int, currentPage: int) returns (pages: seq<int>)
    ensures pages == PagerWindow(totalPages, currentPage)
  {
    var total := if totalPages == 0 then 1 else totalPages;
    var current := Min(Max(currentPage, 1), total);
    var windowSize := 5;
    if total <= windowSize {
      return PageRange(total);
    }
    var start := current - windowSize / 2;
    var end := current + windowSize / 2;
    if start < 1 { start := 1; end := windowSize; }
    if end > total { end := total; start := total - windowSize + 1; }
    pages := seq(end - start + 1, i => start + i);
  }

  /**
   * `visiblePages` of the forecast screen: the window end is `start + 4` and a
   * corrected start is kept at least 1. It shows the same pages as `CentredPages`.
   */
  method ForecastPages(totalPages: int, currentPage: int) returns (pages: seq<int>)
    ensures pages == PagerWindow(totalPages, currentPage)
  {
    var total := if totalPages == 0 then 1 else totalPages;
    var current := Min(Max(currentPage, 1), total);
    var windowSize := 5;
    if total <= windowSize {
      return PageRange(total);
    }
    var start := current - windowSize / 2;
    var end := start + windowSize - 1;
    if start < 1 { start := 1; end := windowSize; }
    if end > total { end := total; start := Max(1, total - windowSize + 1); }
    pages := seq(end - start + 1, i => start + i);
  }
}
