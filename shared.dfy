/**
 * utils/shared.go: the ten-per-page window helpers and the image allow-list gate.
 */
module Shared {
  import opened Wrappers
  import Paging

  const PlaceholderImageURL: string := "https://image.kurohelper.com/docs/neneGIF.gif"

  /** A window of a result list and whether more results follow it. */
  datatype Paged<T> = Paged(items: seq<T>, more: bool)

  /**
   * Where the window starts: the first page when the cache is not in use or the page is 0,
   * otherwise page * 10 clamped to the end of the list.
   */
  function WindowStart(n: nat, page: int, useCache: bool): int {
    if !useCache || page == 0 then 0 else Paging.Min(page * 10, n)
  }

  /**
   * utils.PaginationR. None stands for the Go panic of a negative slice bound, which happens
   * exactly for a negative page in cache mode. Otherwise the result is the (at most) ten items
   * from WindowStart on, in order, and the flag says whether items follow the window.
   */
  function PaginationR<T>(s: seq<T>, page: int, useCache: bool): (r: Option<Paged<T>>)
    ensures r.None? <==> useCache && page < 0
    ensures r.Some? ==>
      var lo := WindowStart(|s|, page, useCache);
      && 0 <= lo <= |s|
      && r.value.items == s[lo .. Paging.Min(lo + 10, |s|)]
      && (r.value.more <==> lo + 10 < |s|)
  {
    var n := |s|;
    var expectedMin := page * 10;
    var expectedMax := page * 10 + 10;
    if !useCache || page == 0 then
      if n > 10 then Some(Paged(s[..10], true)) else Some(Paged(s, false))
    else if n > expectedMax then
      if expectedMin < 0 then None else Some(Paged(s[expectedMin..expectedMax], true))
    else
      var lo := Paging.Min(expectedMin, n);
      if lo < 0 then None else Some(Paged(s[lo..], false))
  }

  /** The window is a contiguous, order-preserving piece of the input of at most ten items. */
  lemma PaginationRIsSlice<T>(s: seq<T>, page: int, useCache: bool)
    requires !useCache || page >= 0
    ensures var r := PaginationR(s, page, useCache).value;
      && |r.items| <= 10
      && exists lo :: 0 <= lo <= |s| && r.items <= s[lo..]
  {
    var lo := WindowStart(|s|, page, useCache);
    var r := PaginationR(s, page, useCache).value;
    assert r.items <= s[lo..];
  }

  /** A page past the end in cache mode gives an empty window with nothing after it. */
  lemma PaginationRPastEnd<T>(s: seq<T>, page: int)
    requires page > 0 && page * 10 >= |s|
    ensures PaginationR(s, page, true) == Some(Paged([], false))
  {
  }

  /** The slice behind a pointer that utils.Pagination rewrites. */
  class SliceRef<T> {
    var items: seq<T>

    constructor (s: seq<T>)
      ensures items == s
    {
      items := s;
    }
  }

  /**
   * utils.Pagination: the same window as PaginationR, written back through the pointer. Without
   * PaginationR's clamp the suffix slice panics unless the page starts inside the list, and
   * the precondition excludes exactly those calls.
   */
  method Pagination<T>(result: SliceRef<T>, page: int, useCache: bool) returns (more: bool)
    requires !useCache || page == 0 || 0 <= page * 10 <= |result.items|
    modifies result
    ensures PaginationR(old(result.items), page, useCache) == Some(Paged(result.items, more))
  {
    var n := |result.items|;
    var expectedMin := page * 10;
    var expectedMax := page * 10 + 10;
    if !useCache || page == 0 {
      if n > 10 {
        result.items := result.items[..10];
        return true;
      }
      return false;
    } else {
      if n > expectedMax {
        result.items := result.items[expectedMin..expectedMax];
        return true;
      } else {
        result.items := result.items[expectedMin..];
        return false;
      }
    }
  }

  /** Who sent the interaction: the guild it came from ("" in a direct message) and the user. */
  datatype Caller = Caller(guildID: string, userID: string)

  /**
   * utils.GenerateImage: the image is shown only to an allow-listed guild, or, in a direct
   * message, to an allow-listed user; its URL is passed through.
   */
  function GenerateImage(c: Caller, allowList: set<string>, url: string): (r: Option<string>)
    ensures r.Some? <==> (if c.guildID != "" then c.guildID in allowList else c.userID in allowList)
    ensures r.Some? ==> r.value == url
  {
    if c.guildID != "" then
      if c.guildID in allowList then Some(url) else None
    else
      if c.userID in allowList then Some(url) else None
  }

  /** In a guild the user's own listing does not matter, and in a direct message the guild's does not. */
  lemma GenerateImageContext(c: Caller, allowList: set<string>, url: string, other: string)
    ensures c.guildID != "" ==> GenerateImage(c, allowList, url) == GenerateImage(Caller(c.guildID, other), allowList, url)
    ensures c.guildID == "" && c.userID !in allowList ==> GenerateImage(c, allowList, url).None?
  {
  }
}
