/**
 * The page arithmetic every list builder repeats:
 *   totalPages := (totalItems + perPage - 1) / perPage   (some builders then floor it at 1)
 *   start := (currentPage - 1) * perPage; end := min(start + perPage, totalItems)
 *   paged := items[start:end]                            (a Go panic unless 0 <= start <= end)
 *   itemNum := start + idx + 1
 */
module Paging {
  import opened Wrappers

  function Min(a: int, b: int): int { if a < b then a else b }

  /** The number of pages of `n` items, rounded up: the least k with k * per >= n. */
  function PageCount(n: nat, per: nat): (k: nat)
    requires per > 0
    ensures k * per >= n
    ensures k > 0 ==> (k - 1) * per < n
  {
    var k := (n + per - 1) / per;
    assert k * per + (n + per - 1) % per == n + per - 1;
    k
  }

  /** The page count with the floor of one page that the creator and character builders add. */
  function FlooredPageCount(n: nat, per: nat): (k: nat)
    requires per > 0
    ensures k >= 1
    ensures n > 0 ==> k == PageCount(n, per)
  {
    var k := PageCount(n, per);
    if k == 0 then 1 else k
  }

  function Start(page: int, per: nat): int { (page - 1) * per }

  function End(page: int, per: nat, n: nat): int { Min(Start(page, per) + per, n) }

  /** The items of one page, or None where the Go slice expression panics. */
  function PageItems<T>(s: seq<T>, per: nat, page: int): (r: Option<seq<T>>)
    requires per > 0
    ensures r.Some? <==> 0 <= Start(page, per) <= |s|
    ensures r.Some? ==> |r.value| == Min(per, |s| - Start(page, per))
    ensures r.Some? ==> forall k :: 0 <= k < |r.value| ==> r.value[k] == s[Start(page, per) + k]
  {
    var start := Start(page, per);
    var end := End(page, per, |s|);
    if 0 <= start <= end then Some(s[start..end]) else None
  }

  /** The page count as the builders compute it, before any floor. */
  method TotalPages(n: nat, per: nat) returns (k: int)
    requires per > 0
    ensures k == PageCount(n, per)
  {
    k := (n + per - 1) / per;
  }

  /** The window of one page as the builders take it, with None where the slice panics. */
  method Window<T>(s: seq<T>, per: nat, page: int) returns (start: int, paged: Option<seq<T>>)
    requires per > 0
    ensures start == Start(page, per) && paged == PageItems(s, per, page)
  {
    start := (page - 1) * per;
    var end := Min(start + per, |s|);
    if !(0 <= start <= end) {
      return start, None;
    }
    paged := Some(s[start..end]);
  }

  /** The number shown in front of the idx-th item of a page. */
  function ItemNumber(page: int, per: nat, idx: nat): int { Start(page, per) + idx + 1 }

  /** With a positive page size the window starts inside the list exactly from page 1 on. */
  lemma StartNonNegative(page: int, per: nat)
    requires per > 0
    ensures 0 <= Start(page, per) <==> page >= 1
  {
    if page < 1 {
      assert (page - 1) * per <= -1 * per;
    }
  }

  /** Every page from 1 to the (floored) page count can be shown without a panic. */
  lemma PagesInRange<T>(s: seq<T>, per: nat, page: int)
    requires per > 0
    requires 1 <= page <= FlooredPageCount(|s|, per)
    ensures PageItems(s, per, page).Some?
    ensures |s| > 0 ==> |PageItems(s, per, page).value| > 0
  {
    StartNonNegative(page, per);
    if |s| > 0 {
      assert (page - 1) * per <= (PageCount(|s|, per) - 1) * per;
    }
  }

  /** No results still make one page, and page 1 of it is valid and empty. */
  lemma EmptyListOnePage<T>(per: nat)
    requires per > 0
    ensures PageCount(0, per) == 0
    ensures FlooredPageCount(0, per) == 1
    ensures PageItems<T>([], per, 1) == Some([])
  {
  }

  /** A list of exactly k pages has k pages: no trailing empty page. */
  lemma ExactPages(per: nat, k: nat)
    requires per > 0
    ensures PageCount(per * k, per) == k
  {
  }

  /**
   * Every item is on exactly one page: item i is at position i % per of page i / per + 1, where
   * it is numbered i + 1.
   */
  lemma ItemPlacement<T>(s: seq<T>, per: nat, i: nat)
    requires per > 0 && i < |s|
    ensures var page := i / per + 1;
      && PageItems(s, per, page).Some?
      && i % per < |PageItems(s, per, page).value|
      && PageItems(s, per, page).value[i % per] == s[i]
      && ItemNumber(page, per, i % per) == i + 1
  {
    var page := i / per + 1;
    assert Start(page, per) == (i / per) * per;
    assert (i / per) * per + i % per == i;
  }

  /** The page of item i is one of the counted pages. */
  lemma PageWithin(n: nat, per: nat, i: nat)
    requires per > 0 && i < n
    ensures i / per + 1 <= FlooredPageCount(n, per)
  {
  }

  /** Twenty-three results at ten per page: three pages, the last holding items 21 to 23. */
  lemma TwentyThreeItems<T>(s: seq<T>)
    requires |s| == 23
    ensures FlooredPageCount(23, 10) == 3
    ensures PageItems(s, 10, 1) == Some(s[0..10])
    ensures PageItems(s, 10, 3) == Some(s[20..23])
    ensures ItemNumber(3, 10, 0) == 21 && ItemNumber(3, 10, 2) == 23
    ensures PageItems(s, 10, 4).None? && PageItems(s, 10, 0).None?
  {
  }
}
