/**
 * The creator search (handlers/search_creator.go): a list of creators found by keyword, ten
 * to a page, each with a detail button; a creator's detail page listing their games by
 * rating, seven to a page, with a game menu and its own page controls; and the routing of
 * every token the two pages hand out.
 *
 * The two builders are pure functions of the cached record, the page and the session handle,
 * each implemented by a loop that is proved to compute it. The flows are functions from the
 * stores to the stores and the actions taken, implemented by methods over the live stores.
 */
module SearchCreator {
  import opened Wrappers
  import opened Errors
  import opened Cid
  import opened Transport
  import opened Cache
  import opened Views
  import Paging
  import Sorting
  import ErogsIds
  import Navigator
  import Base64Url
  import GoText
  import Seqs

  const ListPerPage: nat := 10
  const DetailPerPage: nat := 7
  const ListCommand := "C2"
  const DetailCommand := "CD2"
  const GameSelectCommand := "CG2"

  /** One erogs.CreatorList row. */
  datatype CreatorMatch = CreatorMatch(id: int, name: string)

  /** A credit of a creator on a game: a role code, and its own name for code 7. */
  datatype Shokushu = Shokushu(shubetu: int, detailName: string)

  datatype CreatorGame = CreatorGame(id: int, gamename: string, sellDay: string, median: int,
                                     countAll: int, dmm: string, shokushu: seq<Shokushu>)

  /** erogs.Creator. */
  datatype Creator = Creator(name: string, twitterUsername: string, pixiv: Option<int>, games: seq<CreatorGame>)

  /** The cached list: None is a nil slice. */
  type CreatorList = Option<seq<CreatorMatch>>

  /** The cached record: None is a nil pointer. */
  type CreatorRecord = Option<Creator>

  // ---- What the two pages show ----

  /** A list row: its number, the creator, and the token of its detail button. */
  datatype CreatorRow = CreatorRow(number: int, id: int, name: string, detail: CIDV2)

  datatype CreatorListPage = CreatorListPage(total: nat, rows: seq<CreatorRow>, pager: Pager)

  datatype Link = Twitter(user: string) | Pixiv(id: int)

  /** A role as shown: the name erogs.ShubetuMap gives the code, or the credit's own name. */
  datatype RoleLabel = Named(shubetu: int) | Custom(name: string)

  datatype GameRow = GameRow(number: int, title: string, roles: seq<RoleLabel>, median: int,
                             countAll: int, sellDay: string, thumb: Thumb)

  datatype CreatorDetailPage = CreatorDetailPage(name: string, links: seq<Link>, total: nat, roleCount: nat,
                                                 rows: seq<GameRow>, menu: Menu, pager: Option<Pager>)

  datatype CreatorView = List(list: CreatorListPage) | Detail(detail: CreatorDetailPage)

  // ---- The list builder (buildSearchCreatorListComponents) ----

  function ListRow(number: int, m: CreatorMatch, cacheID: string): CreatorRow {
    CreatorRow(number, m.id, m.name, CIDV2(ListCommand, DetailBtn, cacheID, ErogsIds.MenuId(m.id)))
  }

  /** Page `page` of the creator list for session `cacheID`. */
  function ListComponents(res: CreatorList, page: int, cacheID: string): Outcome<CreatorView> {
    match res
    case None => BuildFailed(NilResult)
    case Some(items) =>
      match Paging.PageItems(items, ListPerPage, page)
      case None => Panics
      case Some(paged) =>
        var start := Paging.Start(page, ListPerPage);
        Built(List(CreatorListPage(|items|,
          seq(|paged|, k requires 0 <= k < |paged| => ListRow(start + k + 1, paged[k], cacheID)),
          Pager(ListCommand, page, Paging.FlooredPageCount(|items|, ListPerPage), cacheID))))
  }

  method BuildListComponents(res: CreatorList, page: int, cacheID: string) returns (o: Outcome<CreatorView>)
    ensures o == ListComponents(res, page, cacheID)
  {
    if res.None? {
      return BuildFailed(NilResult);
    }
    var items := res.value;
    var totalItems := |items|;
    var totalPages := Paging.TotalPages(totalItems, ListPerPage);
    if totalPages == 0 {
      totalPages := 1;
    }
    var start, window := Paging.Window(items, ListPerPage, page);
    if window.None? {
      return Panics;
    }
    var paged := window.value;
    ghost var rowAt := (k: int, m: CreatorMatch) => ListRow(start + k + 1, m, cacheID);
    var rows: seq<CreatorRow> := [];
    var idx := 0;
    while idx < |paged|
      invariant 0 <= idx <= |paged|
      invariant Seqs.MapsPrefix(rows, paged, rowAt, idx)
    {
      var row := ListRow(start + idx + 1, paged[idx], cacheID);
      Seqs.MapsStep(rows, paged, rowAt, idx, row);
      rows := rows + [row];
      idx := idx + 1;
    }
    Seqs.MapsAll(rows, paged, rowAt, |paged|);
    assert rows == seq(|paged|, k requires 0 <= k < |paged| => ListRow(start + k + 1, paged[k], cacheID));
    return Built(List(CreatorListPage(totalItems, rows, Pager(ListCommand, page, totalPages, cacheID))));
  }

  // ---- The detail builder (buildSearchCreatorDetailComponents) ----

  /** The order of the detail page: higher erogamescape median first. */
  predicate ByMedianDesc(a: CreatorGame, b: CreatorGame) {
    a.median >= b.median
  }

  lemma MedianOrder()
    ensures Sorting.TotalPreorder(ByMedianDesc)
  {
  }

  /** The creator's games as sort.Slice leaves them: by median, highest first, none lost. */
  function SortedGames(games: seq<CreatorGame>): (r: seq<CreatorGame>)
    ensures Sorting.SortedBy(r, ByMedianDesc)
    ensures multiset(r) == multiset(games) && |r| == |games|
  {
    MedianOrder();
    Sorting.SortBy(games, ByMedianDesc)
  }

  function Label(s: Shokushu): RoleLabel {
    if s.shubetu != 7 then Named(s.shubetu) else Custom(s.detailName)
  }

  function Labels(ss: seq<Shokushu>): seq<RoleLabel> {
    seq(|ss|, k requires 0 <= k < |ss| => Label(ss[k]))
  }

  function Row(number: int, g: CreatorGame): GameRow {
    GameRow(number, g.gamename, Labels(g.shokushu), g.median, g.countAll, g.sellDay, ThumbFromDmm(g.dmm))
  }

  function GameItem(g: CreatorGame): MenuItem {
    MenuItem(g.gamename + " (" + g.sellDay + ")", ErogsIds.MenuId(g.id))
  }

  function Links(c: Creator): seq<Link> {
    (if c.twitterUsername != "" then [Twitter(c.twitterUsername)] else [])
    + (if c.pixiv.Some? then [Pixiv(c.pixiv.value)] else [])
  }

  /** The number of credits over a list of games (countInner). */
  function RoleCount(games: seq<CreatorGame>): nat {
    if games == [] then 0 else RoleCount(games[..|games| - 1]) + |games[|games| - 1].shokushu|
  }

  /** Page `page` of a creator's games for session `cacheID`. */
  function DetailComponents(res: CreatorRecord, page: int, cacheID: string): Outcome<CreatorView> {
    match res
    case None => BuildFailed(NilResult)
    case Some(c) =>
      var games := SortedGames(c.games);
      match Paging.PageItems(games, DetailPerPage, page)
      case None => Panics
      case Some(paged) =>
        var start := Paging.Start(page, DetailPerPage);
        Built(Detail(CreatorDetailPage(c.name, Links(c), |games|, RoleCount(games),
          seq(|paged|, k requires 0 <= k < |paged| => Row(start + k + 1, paged[k])),
          Menu(GameSelectCommand, cacheID, seq(|paged|, k requires 0 <= k < |paged| => GameItem(paged[k]))),
          if |games| > DetailPerPage
          then Some(Pager(DetailCommand, page, Paging.FlooredPageCount(|games|, DetailPerPage), cacheID))
          else None)))
  }

  method CountRoles(games: seq<CreatorGame>) returns (count: nat)
    ensures count == RoleCount(games)
  {
    count := 0;
    var i := 0;
    while i < |games|
      invariant 0 <= i <= |games|
      invariant count == RoleCount(games[..i])
    {
      assert games[..i + 1][..i] == games[..i];
      count := count + |games[i].shokushu|;
      i := i + 1;
    }
    assert games[..|games|] == games;
  }

  method RoleLabels(ss: seq<Shokushu>) returns (labels: seq<RoleLabel>)
    ensures labels == Labels(ss)
  {
    labels := [];
    var j := 0;
    while j < |ss|
      invariant 0 <= j <= |ss|
      invariant |labels| == j
      invariant forall k :: 0 <= k < j ==> labels[k] == Label(ss[k])
    {
      if ss[j].shubetu != 7 {
        labels := labels + [Named(ss[j].shubetu)];
      } else {
        labels := labels + [Custom(ss[j].detailName)];
      }
      j := j + 1;
    }
  }

  /** One game's section and menu item: the thumbnail is the DMM cover when there is a code. */
  method DetailRow(number: int, g: CreatorGame) returns (row: GameRow, item: MenuItem)
    ensures row == Row(number, g) && item == GameItem(g)
  {
    var labels := RoleLabels(g.shokushu);
    var thumb := Placeholder;
    if GoText.TrimSpace(g.dmm) != "" {
      thumb := Dmm(g.dmm);
    }
    row := GameRow(number, g.gamename, labels, g.median, g.countAll, g.sellDay, thumb);
    item := MenuItem(g.gamename + " (" + g.sellDay + ")", "e" + GoText.Itoa(g.id));
  }

  /** The sections and the menu of one page of games that starts after item `start`. */
  method DetailRows(paged: seq<CreatorGame>, start: int) returns (rows: seq<GameRow>, items: seq<MenuItem>)
    ensures rows == seq(|paged|, k requires 0 <= k < |paged| => Row(start + k + 1, paged[k]))
    ensures items == seq(|paged|, k requires 0 <= k < |paged| => GameItem(paged[k]))
  {
    ghost var rowAt := (k: int, g: CreatorGame) => Row(start + k + 1, g);
    ghost var itemAt := (k: int, g: CreatorGame) => GameItem(g);
    rows, items := [], [];
    var idx := 0;
    while idx < |paged|
      invariant 0 <= idx <= |paged|
      invariant Seqs.MapsPrefix(rows, paged, rowAt, idx) && Seqs.MapsPrefix(items, paged, itemAt, idx)
    {
      var row, item := DetailRow(start + idx + 1, paged[idx]);
      Seqs.MapsStep(rows, paged, rowAt, idx, row);
      Seqs.MapsStep(items, paged, itemAt, idx, item);
      rows := rows + [row];
      items := items + [item];
      idx := idx + 1;
    }
    Seqs.MapsAll(rows, paged, rowAt, |paged|);
    Seqs.MapsAll(items, paged, itemAt, |paged|);
  }

  method BuildDetailComponents(res: CreatorRecord, page: int, cacheID: string) returns (o: Outcome<CreatorView>)
    ensures o == DetailComponents(res, page, cacheID)
  {
    if res.None? {
      return BuildFailed(NilResult);
    }
    var c := res.value;
    var games := SortedGames(c.games);
    var totalItems := |games|;
    var totalPages := Paging.TotalPages(totalItems, DetailPerPage);
    if totalPages == 0 {
      totalPages := 1;
    }
    var start, window := Paging.Window(games, DetailPerPage, page);
    if window.None? {
      return Panics;
    }
    var paged := window.value;
    var links: seq<Link> := [];
    if c.twitterUsername != "" {
      links := links + [Twitter(c.twitterUsername)];
    }
    if c.pixiv.Some? {
      links := links + [Pixiv(c.pixiv.value)];
    }
    var countInner := CountRoles(games);
    var rows, items := DetailRows(paged, start);
    assert links == Links(c);
    assert totalPages == Paging.FlooredPageCount(totalItems, DetailPerPage);
    var pager: Option<Pager> := None;
    if totalItems > DetailPerPage {
      pager := Some(Pager(DetailCommand, page, totalPages, cacheID));
    }
    return Built(Detail(CreatorDetailPage(c.name, links, totalItems, countInner, rows,
                                          Menu(GameSelectCommand, cacheID, items), pager)));
  }

  // ---- Routing (SearchCreatorV2) ----

  datatype Route = GameSelect | DetailHome | DetailPage | ListPage | OpenDetail | ListHome | Unrouted

  /** The cases of SearchCreatorV2's switch, tried in order. */
  function RouteOf(c: CIDV2): Route {
    if c.commandID == GameSelectCommand && c.behavior == SelectMenu then GameSelect
    else if c.commandID == DetailCommand && c.behavior == BackToHome then DetailHome
    else if c.behavior == Page then (if c.commandID == DetailCommand then DetailPage else ListPage)
    else if c.behavior == DetailBtn then OpenDetail
    else if c.behavior == BackToHome then ListHome
    else Unrouted
  }

  /** The creator list and creator stores beside the session index. */
  datatype CreatorStores = CreatorStores(lists: map<string, CreatorList>, creators: map<string, CreatorRecord>,
                                         sessions: map<string, string>)

  datatype CreatorStep = CreatorStep(stores: CreatorStores, actions: seq<Action<CreatorView>>)

  function ListStores(st: CreatorStores): Navigator.Stores<CreatorList> {
    Navigator.Stores(st.lists, st.sessions)
  }

  function RecordStores(st: CreatorStores): Navigator.Stores<CreatorRecord> {
    Navigator.Stores(st.creators, st.sessions)
  }

  /**
   * erogsSearchCreatorListWithCIDV2 and erogsSearchCreatorDetailWithCIDV2, which are the same
   * code over different stores: the page view of the token, the two lookups and the page, with
   * no acknowledgment of their own.
   */
  function PageFlowSpec<V>(st: Navigator.Stores<V>, c: CIDV2, build: Navigator.Builder<V, CreatorView>): seq<Action<CreatorView>> {
    if c.behavior != Page then [Report(BehaviorIdError, EditComplex)]
    else
      match ToPage(c)
      case Failure(e) => [Report(e, EditComplex)]
      case Success(p) => [Navigator.Render(st, p.cacheID, p.value, build, WebhookEdit)]
  }

  /**
   * erogsSearchCreatorWithSelectMenuCIDV2: the loading edit, the creator from the store or by
   * id from erogs (`fetch`), then a fresh session `handle` for the creator key and page 1.
   */
  function OpenDetailSpec(st: Navigator.Stores<CreatorRecord>, c: CIDV2, handle: string,
                          fetch: int -> Result<CreatorRecord, Err>): Navigator.Step<CreatorRecord, CreatorView> {
    var key := c.value;
    if key in st.results then
      Navigator.Step(st.(sessions := st.sessions[handle := key]),
                     [Loading, Deliver(DetailComponents(st.results[key], 1, handle), EditComplex, EditComplex)])
    else
      match ErogsIds.NormaliseId(key)
      case Failure(e) => Navigator.Step(st, [Loading, Report(e, EditComplex)])
      case Success(id) =>
        match fetch(id)
        case Failure(e) => Navigator.Step(st, [Loading, FetchId(id), Report(e, EditComplex)])
        case Success(r) =>
          Navigator.Step(Navigator.Stores(st.results[key := r], st.sessions[handle := key]),
                         [Loading, FetchId(id), Deliver(DetailComponents(r, 1, handle), EditComplex, EditComplex)])
  }

  /** The work after the deferred acknowledgment, by route. */
  function RouteSpec(st: CreatorStores, c: CIDV2, handle: string, fetch: int -> Result<CreatorRecord, Err>): CreatorStep {
    match RouteOf(c)
    case GameSelect => CreatorStep(st, [Handoff("erogsSearchGameWithSelectMenuCIDV2")])
    case DetailHome => CreatorStep(st, Navigator.BackToHomeSpec(RecordStores(st), c, DetailComponents).actions)
    case DetailPage => CreatorStep(st, PageFlowSpec(RecordStores(st), c, DetailComponents))
    case ListPage => CreatorStep(st, PageFlowSpec(ListStores(st), c, ListComponents))
    case OpenDetail =>
      var s := OpenDetailSpec(RecordStores(st), c, handle, fetch);
      CreatorStep(st.(creators := s.stores.results, sessions := s.stores.sessions), s.actions)
    case ListHome => CreatorStep(st, Navigator.BackToHomeSpec(ListStores(st), c, ListComponents).actions)
    case Unrouted => CreatorStep(st, [Report(BadBehaviorId, EditComplex)])
  }

  /**
   * SearchCreatorV2: the slash command (no token) searches the creator list; a component
   * interaction is acknowledged first and then routed.
   */
  function SearchCreatorSpec(st: CreatorStores, cid: Option<CIDV2>, keyword: Result<seq<Base64Url.byte>, Err>,
                             handle: string, search: Result<CreatorList, Err>,
                             fetch: int -> Result<CreatorRecord, Err>): CreatorStep {
    match cid
    case None =>
      var s := Navigator.SearchListSpec(ListStores(st), keyword, handle, search, ListComponents);
      CreatorStep(st.(lists := s.stores.results, sessions := s.stores.sessions), s.actions)
    case Some(c) => ComponentSpec(st, c, handle, fetch)
  }

  /** A component interaction: the deferred acknowledgment, then the routed work. */
  function ComponentSpec(st: CreatorStores, c: CIDV2, handle: string, fetch: int -> Result<CreatorRecord, Err>): CreatorStep {
    var s := RouteSpec(st, c, handle, fetch);
    CreatorStep(s.stores, [DeferredUpdate] + s.actions)
  }

  method PageFlow<V>(index: SessionIndex, store: CacheStore<V>, log: Transcript<CreatorView>,
                     c: CIDV2, build: Navigator.Builder<V, CreatorView>)
    modifies log
    ensures log.actions == old(log.actions) + PageFlowSpec(Navigator.Stores(store.entries, index.entries), c, build)
  {
    if c.behavior != Page {
      log.Emit(Report(BehaviorIdError, EditComplex));
      return;
    }
    var p := ToPage(c);
    if p.Failure? {
      log.Emit(Report(p.error, EditComplex));
      return;
    }
    var key := index.Lookup(p.value.cacheID);
    if key.Failure? {
      log.Emit(Report(key.error, EditComplex));
      return;
    }
    var cached := store.Lookup(key.value);
    if cached.Failure? {
      log.Emit(Report(cached.error, EditComplex));
      return;
    }
    log.Emit(Deliver(build(cached.value, p.value.value, p.value.cacheID), WebhookEdit, EditComplex));
  }

  /** The creator behind `key`: from the store, or by its normalised id from erogs and stored. */
  method LoadCreator(creators: CacheStore<CreatorRecord>, log: Transcript<CreatorView>, key: string,
                     fetch: int -> Result<CreatorRecord, Err>) returns (res: Option<CreatorRecord>)
    modifies creators, log
    ensures key in old(creators.entries) ==>
      res == Some(old(creators.entries)[key]) && creators.entries == old(creators.entries) && log.actions == old(log.actions)
    ensures key !in old(creators.entries) ==>
      match ErogsIds.NormaliseId(key)
      case Failure(e) =>
        res.None? && creators.entries == old(creators.entries) && log.actions == old(log.actions) + [Report(e, EditComplex)]
      case Success(id) =>
        match fetch(id)
        case Failure(e) =>
          && res.None? && creators.entries == old(creators.entries)
          && log.actions == old(log.actions) + [FetchId(id), Report(e, EditComplex)]
        case Success(r) =>
          res == Some(r) && creators.entries == old(creators.entries)[key := r] && log.actions == old(log.actions) + [FetchId(id)]
  {
    var cached := creators.Lookup(key);
    if cached.Success? {
      return Some(cached.value);
    }
    var id := ErogsIds.NormaliseId(key);
    if id.Failure? {
      log.Emit(Report(id.error, EditComplex));
      return None;
    }
    log.Emit(FetchId(id.value));
    var fetched := fetch(id.value);
    if fetched.Failure? {
      log.Emit(Report(fetched.error, EditComplex));
      return None;
    }
    creators.Set(key, fetched.value);
    return Some(fetched.value);
  }

  method OpenCreatorDetail(index: SessionIndex, creators: CacheStore<CreatorRecord>, log: Transcript<CreatorView>,
                           c: CIDV2, handle: string, fetch: int -> Result<CreatorRecord, Err>)
    modifies index, creators, log
    ensures var s := OpenDetailSpec(Navigator.Stores(old(creators.entries), old(index.entries)), c, handle, fetch);
      Navigator.Stores(creators.entries, index.entries) == s.stores && log.actions == old(log.actions) + s.actions
  {
    var key := c.value;
    log.Emit(Loading);
    var res := LoadCreator(creators, log, key, fetch);
    if res.None? {
      return;
    }
    index.Set(handle, key);
    var o := BuildDetailComponents(res.value, 1, handle);
    log.Emit(Deliver(o, EditComplex, EditComplex));
  }

  /** The routed work of a component interaction, after its acknowledgment. */
  method RouteCreator(index: SessionIndex, lists: CacheStore<CreatorList>, creators: CacheStore<CreatorRecord>,
                      log: Transcript<CreatorView>, c: CIDV2, handle: string, fetch: int -> Result<CreatorRecord, Err>)
    modifies index, lists, creators, log
    ensures var s := RouteSpec(CreatorStores(old(lists.entries), old(creators.entries), old(index.entries)), c, handle, fetch);
      CreatorStores(lists.entries, creators.entries, index.entries) == s.stores && log.actions == old(log.actions) + s.actions
  {
    match RouteOf(c)
    case GameSelect =>
      log.Emit(Handoff("erogsSearchGameWithSelectMenuCIDV2"));
    case DetailHome =>
      Navigator.BackToHome(index, creators, log, c, DetailComponents);
    case DetailPage =>
      PageFlow(index, creators, log, c, DetailComponents);
    case ListPage =>
      PageFlow(index, lists, log, c, ListComponents);
    case OpenDetail =>
      OpenCreatorDetail(index, creators, log, c, handle, fetch);
    case ListHome =>
      Navigator.BackToHome(index, lists, log, c, ListComponents);
    case Unrouted =>
      log.Emit(Report(BadBehaviorId, EditComplex));
  }

  method HandleComponent(index: SessionIndex, lists: CacheStore<CreatorList>, creators: CacheStore<CreatorRecord>,
                         log: Transcript<CreatorView>, c: CIDV2, handle: string, fetch: int -> Result<CreatorRecord, Err>)
    modifies index, lists, creators, log
    ensures var s := ComponentSpec(CreatorStores(old(lists.entries), old(creators.entries), old(index.entries)), c, handle, fetch);
      CreatorStores(lists.entries, creators.entries, index.entries) == s.stores && log.actions == old(log.actions) + s.actions
  {
    log.Emit(DeferredUpdate);
    ghost var before := log.actions;
    RouteCreator(index, lists, creators, log, c, handle, fetch);
    assert log.actions == old(log.actions) + ([DeferredUpdate] + log.actions[|before|..]);
  }

  method SearchCreatorV2(index: SessionIndex, lists: CacheStore<CreatorList>, creators: CacheStore<CreatorRecord>,
                         log: Transcript<CreatorView>, cid: Option<CIDV2>, keyword: Result<seq<Base64Url.byte>, Err>,
                         handle: string, search: Result<CreatorList, Err>, fetch: int -> Result<CreatorRecord, Err>)
    modifies index, lists, creators, log
    ensures var s := SearchCreatorSpec(CreatorStores(old(lists.entries), old(creators.entries), old(index.entries)),
                                       cid, keyword, handle, search, fetch);
      CreatorStores(lists.entries, creators.entries, index.entries) == s.stores && log.actions == old(log.actions) + s.actions
  {
    if cid.None? {
      Navigator.SearchList(index, lists, log, keyword, handle, search, ListComponents);
    } else {
      HandleComponent(index, lists, creators, log, cid.value, handle, fetch);
    }
  }

  // ---- The list page ----

  /**
   * Every creator found is on exactly the page its position says: item i is row i % 10 of page
   * i / 10 + 1, numbered i + 1, and that page is within the pager's count.
   */
  lemma ListShowsEveryMatch(items: seq<CreatorMatch>, i: nat, cacheID: string)
    requires i < |items|
    ensures var page := i / ListPerPage + 1;
      var o := ListComponents(Some(items), page, cacheID);
      && 1 <= page <= o.out.list.pager.totalPages
      && o.Built? && i % ListPerPage < |o.out.list.rows|
      && o.out.list.rows[i % ListPerPage] == ListRow(i + 1, items[i], cacheID)
  {
    var page := i / ListPerPage + 1;
    Paging.ItemPlacement(items, ListPerPage, i);
    Paging.PageWithin(|items|, ListPerPage, i);
  }

  /**
   * Each row's detail button belongs to the list's session, is routed to the creator detail
   * flow, and carries an id that flow reads back as the creator's id.
   */
  lemma ListRowOpensDetail(items: seq<CreatorMatch>, page: int, cacheID: string, k: nat)
    requires ListComponents(Some(items), page, cacheID).Built?
    requires k < |ListComponents(Some(items), page, cacheID).out.list.rows|
    ensures var r := ListComponents(Some(items), page, cacheID).out.list.rows[k];
      && r.id == items[Paging.Start(page, ListPerPage) + k].id
      && r.number == Paging.ItemNumber(page, ListPerPage, k)
      && r.detail.cacheID == cacheID
      && RouteOf(r.detail) == OpenDetail
      && (GoText.IsInt64(r.id) ==> ErogsIds.NormaliseId(r.detail.value) == Success(r.id))
  {
    ListRowAt(items, page, cacheID, k);
    var r := ListComponents(Some(items), page, cacheID).out.list.rows[k];
    if GoText.IsInt64(r.id) {
      ErogsIds.NormaliseMenuId(r.id);
    }
  }

  /** Row k of a list page is the row of the match at position start + k. */
  lemma ListRowAt(items: seq<CreatorMatch>, page: int, cacheID: string, k: nat)
    requires ListComponents(Some(items), page, cacheID).Built?
    requires k < |ListComponents(Some(items), page, cacheID).out.list.rows|
    ensures 0 <= Paging.Start(page, ListPerPage) + k < |items|
    ensures ListComponents(Some(items), page, cacheID).out.list.rows[k]
      == ListRow(Paging.Start(page, ListPerPage) + k + 1, items[Paging.Start(page, ListPerPage) + k], cacheID)
  {
  }

  /**
   * Pressing a row's button when the creator is not cached fetches exactly that creator's id,
   * after the loading edit.
   */
  lemma ClickFetchesCreator(st: CreatorStores, items: seq<CreatorMatch>, page: int, cacheID: string, k: nat,
                            handle: string, fetch: int -> Result<CreatorRecord, Err>)
    requires ListComponents(Some(items), page, cacheID).Built?
    requires k < |ListComponents(Some(items), page, cacheID).out.list.rows|
    requires var r := ListComponents(Some(items), page, cacheID).out.list.rows[k];
      GoText.IsInt64(r.id) && r.detail.value !in st.creators
    ensures var r := ListComponents(Some(items), page, cacheID).out.list.rows[k];
      var s := SearchCreatorSpec(st, Some(r.detail), Failure(OptionMissing), handle, Failure(OptionMissing), fetch);
      |s.actions| >= 3 && s.actions[..3] == [DeferredUpdate, Loading, FetchId(r.id)]
  {
    ListRowOpensDetail(items, page, cacheID, k);
    var r := ListComponents(Some(items), page, cacheID).out.list.rows[k];
    OpenDetailMiss(RecordStores(st), r.detail, handle, fetch, r.id);
  }

  /** A nil list is an error, never a panic or a page. */
  lemma ListNil(page: int, cacheID: string)
    ensures ListComponents(None, page, cacheID) == BuildFailed(NilResult)
  {
  }

  // ---- The detail page ----

  lemma {:induction false} RoleCountAppend(a: seq<CreatorGame>, b: seq<CreatorGame>)
    ensures RoleCount(a + b) == RoleCount(a) + RoleCount(b)
    decreases |b|
  {
    if b == [] {
      assert a + b == a;
    } else {
      var b' := b[..|b| - 1];
      assert (a + b)[..|a + b| - 1] == a + b';
      RoleCountAppend(a, b');
    }
  }

  /** Taking one game out takes exactly its credits out of the count. */
  lemma RoleCountRemove(b: seq<CreatorGame>, j: nat)
    requires j < |b|
    ensures RoleCount(b) == RoleCount(b[..j] + b[j + 1..]) + |b[j].shokushu|
  {
    var pre, post := b[..j], b[j + 1..];
    assert b == pre + [b[j]] + post;
    RoleCountAppend(pre + [b[j]], post);
    RoleCountAppend(pre, [b[j]]);
    RoleCountAppend(pre, post);
    assert RoleCount([b[j]]) == |b[j].shokushu| by {
      assert [b[j]][..0] == [];
    }
  }

  /** The credit count does not depend on the order of the games. */
  lemma {:induction false} RoleCountPermutation(a: seq<CreatorGame>, b: seq<CreatorGame>)
    requires multiset(a) == multiset(b)
    ensures RoleCount(a) == RoleCount(b)
    decreases |a|
  {
    if a == [] {
      assert |b| == |multiset(b)| == 0;
    } else {
      var x := a[|a| - 1];
      var a' := a[..|a| - 1];
      assert a == a' + [x];
      var j := Sorting.PermutationStep(a, b);
      RoleCountPermutation(a', b[..j] + b[j + 1..]);
      RoleCountRemove(b, j);
      RoleCountAppend(a', [x]);
      assert RoleCount([x]) == |x.shokushu| by {
        assert [x][..0] == [];
      }
    }
  }

  /** A built detail page is the window of the rating order that its page number selects. */
  lemma DetailWindow(c: Creator, page: int, cacheID: string)
    requires DetailComponents(Some(c), page, cacheID).Built?
    ensures var w := Paging.PageItems(SortedGames(c.games), DetailPerPage, page);
      && w.Some?
      && DetailComponents(Some(c), page, cacheID).out.detail.rows
         == seq(|w.value|, j requires 0 <= j < |w.value| => Row(Paging.Start(page, DetailPerPage) + j + 1, w.value[j]))
  {
  }

  /** A page whose window of the rating order exists is built, with one row per game in it. */
  lemma DetailBuilt(c: Creator, page: int, cacheID: string)
    requires Paging.PageItems(SortedGames(c.games), DetailPerPage, page).Some?
    ensures DetailComponents(Some(c), page, cacheID).Built?
    ensures |DetailComponents(Some(c), page, cacheID).out.detail.rows|
         == |Paging.PageItems(SortedGames(c.games), DetailPerPage, page).value|
  {
  }

  /** Row k of a detail page is the game at that position of the rating order. */
  lemma DetailRowAt(c: Creator, page: int, cacheID: string, k: nat)
    requires DetailComponents(Some(c), page, cacheID).Built?
    requires k < |DetailComponents(Some(c), page, cacheID).out.detail.rows|
    ensures var i := Paging.Start(page, DetailPerPage) + k;
      && 0 <= i < |c.games|
      && DetailComponents(Some(c), page, cacheID).out.detail.rows[k] == Row(i + 1, SortedGames(c.games)[i])
  {
    DetailWindow(c, page, cacheID);
  }

  /**
   * The games are shown by rating across the whole session: a row on an earlier page, or
   * earlier on the same page, never has a lower median than a later one.
   */
  lemma DetailOrdered(c: Creator, p1: int, k1: nat, p2: int, k2: nat, cacheID: string)
    requires DetailComponents(Some(c), p1, cacheID).Built? && DetailComponents(Some(c), p2, cacheID).Built?
    requires k1 < |DetailComponents(Some(c), p1, cacheID).out.detail.rows|
    requires k2 < |DetailComponents(Some(c), p2, cacheID).out.detail.rows|
    requires p1 < p2 || (p1 == p2 && k1 <= k2)
    ensures DetailComponents(Some(c), p1, cacheID).out.detail.rows[k1].median
         >= DetailComponents(Some(c), p2, cacheID).out.detail.rows[k2].median
  {
    DetailRowAt(c, p1, cacheID, k1);
    DetailRowAt(c, p2, cacheID, k2);
    var games := SortedGames(c.games);
    var i1, i2 := Paging.Start(p1, DetailPerPage) + k1, Paging.Start(p2, DetailPerPage) + k2;
    assert |DetailComponents(Some(c), p1, cacheID).out.detail.rows| <= DetailPerPage;
    assert i1 <= i2;
    if i1 < i2 {
      assert ByMedianDesc(games[i1], games[i2]);
    }
  }

  /** Every game of the creator is shown on some counted page of the session. */
  lemma DetailShowsEveryGame(c: Creator, g: CreatorGame, cacheID: string) returns (page: int, k: nat)
    requires g in c.games
    ensures 1 <= page <= Paging.FlooredPageCount(|c.games|, DetailPerPage)
    ensures var o := DetailComponents(Some(c), page, cacheID);
      o.Built? && k < |o.out.detail.rows| && o.out.detail.rows[k] == Row(Paging.ItemNumber(page, DetailPerPage, k), g)
  {
    page, k := GamePosition(c, g);
    DetailBuilt(c, page, cacheID);
    DetailRowAt(c, page, cacheID, k);
  }

  /** The page and the row on it at which a game falls in the rating order. */
  lemma GamePosition(c: Creator, g: CreatorGame) returns (page: int, k: nat)
    requires g in c.games
    ensures 1 <= page <= Paging.FlooredPageCount(|c.games|, DetailPerPage)
    ensures Paging.PageItems(SortedGames(c.games), DetailPerPage, page).Some?
    ensures k < |Paging.PageItems(SortedGames(c.games), DetailPerPage, page).value|
    ensures 0 <= Paging.Start(page, DetailPerPage) + k < |c.games|
    ensures SortedGames(c.games)[Paging.Start(page, DetailPerPage) + k] == g
  {
    var games := SortedGames(c.games);
    var i := Sorting.PositionIn(c.games, games, g);
    page, k := i / DetailPerPage + 1, i % DetailPerPage;
    Paging.ItemPlacement(games, DetailPerPage, i);
    Paging.PageWithin(|games|, DetailPerPage, i);
    assert Paging.Start(page, DetailPerPage) + k == i;
  }

  /** The header counts every credit of every game, whichever page is shown. */
  lemma DetailRoleCount(c: Creator, page: int, cacheID: string)
    requires DetailComponents(Some(c), page, cacheID).Built?
    ensures DetailComponents(Some(c), page, cacheID).out.detail.total == |c.games|
    ensures DetailComponents(Some(c), page, cacheID).out.detail.roleCount == RoleCount(c.games)
  {
    RoleCountPermutation(SortedGames(c.games), c.games);
  }

  /**
   * The page controls appear exactly when there are more than seven games, and lead back to
   * this session's detail paging; the game menu is routed to the game select flow.
   */
  lemma DetailControls(c: Creator, page: int, cacheID: string, v: string)
    requires DetailComponents(Some(c), page, cacheID).Built?
    ensures var d := DetailComponents(Some(c), page, cacheID).out.detail;
      && (d.pager.Some? <==> |c.games| > DetailPerPage)
      && (d.pager.Some? ==> d.pager.value.cacheID == cacheID
                            && RouteOf(CIDV2(d.pager.value.commandID, Page, d.pager.value.cacheID, v)) == DetailPage)
      && d.menu.cacheID == cacheID
      && RouteOf(CIDV2(d.menu.commandID, SelectMenu, d.menu.cacheID, v)) == GameSelect
  {
  }

  // ---- Routing ----

  /** The order of the switch decides the overlapping cases. */
  lemma RoutePrecedence(c: CIDV2)
    ensures c.behavior == SelectMenu ==> (RouteOf(c) == GameSelect <==> c.commandID == GameSelectCommand)
    ensures c.behavior == SelectMenu && c.commandID != GameSelectCommand ==> RouteOf(c) == Unrouted
    ensures c.behavior == BackToHome ==> (RouteOf(c) == DetailHome <==> c.commandID == DetailCommand)
    ensures c.behavior == BackToHome && c.commandID != DetailCommand ==> RouteOf(c) == ListHome
    ensures c.behavior == Page ==> (RouteOf(c) == DetailPage <==> c.commandID == DetailCommand)
    ensures c.behavior == DetailBtn ==> RouteOf(c) == OpenDetail
  {
  }

  /**
   * Every component interaction is acknowledged before anything else and answered after it;
   * a menu that is not the game menu is refused.
   */
  lemma ComponentAcksFirst(st: CreatorStores, c: CIDV2, keyword: Result<seq<Base64Url.byte>, Err>, handle: string,
                           search: Result<CreatorList, Err>, fetch: int -> Result<CreatorRecord, Err>)
    ensures var s := SearchCreatorSpec(st, Some(c), keyword, handle, search, fetch);
      && |s.actions| >= 2 && s.actions[0] == DeferredUpdate
      && (RouteOf(c) == Unrouted ==> s.actions == [DeferredUpdate, Report(BadBehaviorId, EditComplex)] && s.stores == st)
  {
  }

  /** Only the creator detail flow can change a store when a token is pressed. */
  lemma OnlyDetailWrites(st: CreatorStores, c: CIDV2, handle: string, fetch: int -> Result<CreatorRecord, Err>)
    requires RouteOf(c) != OpenDetail
    ensures RouteSpec(st, c, handle, fetch).stores == st
  {
  }

  // ---- The creator detail flow ----

  /** A key that is neither cached nor a number is reported without a fetch or a new session. */
  lemma OpenDetailBadId(st: Navigator.Stores<CreatorRecord>, c: CIDV2, handle: string, fetch: int -> Result<CreatorRecord, Err>)
    requires c.value !in st.results && ErogsIds.NormaliseId(c.value).Failure?
    ensures var s := OpenDetailSpec(st, c, handle, fetch);
      && s.stores == st
      && s.actions == [Loading, Report(ErogsIds.NormaliseId(c.value).error, EditComplex)]
      && forall id :: FetchId(id) !in s.actions
  {
  }

  /** A key that is not cached but is a number is fetched by that number after the loading edit. */
  lemma OpenDetailMiss(st: Navigator.Stores<CreatorRecord>, c: CIDV2, handle: string,
                       fetch: int -> Result<CreatorRecord, Err>, id: int)
    requires c.value !in st.results && ErogsIds.NormaliseId(c.value) == Success(id)
    ensures var s := OpenDetailSpec(st, c, handle, fetch);
      |s.actions| == 3 && s.actions[..2] == [Loading, FetchId(id)]
  {
  }

  /** A cached creator is shown without a fetch; only the new session is recorded. */
  lemma OpenDetailCached(st: Navigator.Stores<CreatorRecord>, c: CIDV2, handle: string, fetch: int -> Result<CreatorRecord, Err>)
    requires c.value in st.results
    ensures var s := OpenDetailSpec(st, c, handle, fetch);
      && s.stores == Navigator.Stores(st.results, st.sessions[handle := c.value])
      && (forall id :: FetchId(id) !in s.actions)
      && s.actions[|s.actions| - 1] == Deliver(DetailComponents(st.results[c.value], 1, handle), EditComplex, EditComplex)
  {
  }

  /**
   * A fetched creator is stored under the token's key, the new session points at it, and the
   * first page is built for the new session.
   */
  lemma OpenDetailFetched(st: Navigator.Stores<CreatorRecord>, c: CIDV2, handle: string,
                          fetch: int -> Result<CreatorRecord, Err>, id: int, r: CreatorRecord)
    requires c.value !in st.results && ErogsIds.NormaliseId(c.value) == Success(id) && fetch(id) == Success(r)
    ensures var s := OpenDetailSpec(st, c, handle, fetch);
      && s.stores == Navigator.Stores(st.results[c.value := r], st.sessions[handle := c.value])
      && Navigator.Resolve(s.stores, handle) == Success(r)
      && s.actions == [Loading, FetchId(id), Deliver(DetailComponents(r, 1, handle), EditComplex, EditComplex)]
  {
  }

  /**
   * The detail session is independent of the list: after a creator is opened, the page
   * controls of the new session page through that creator's games, whatever the list's
   * session holds.
   */
  lemma DetailPagingAfterOpen(st: CreatorStores, c: CIDV2, handle: string, fetch: int -> Result<CreatorRecord, Err>, n: int)
    requires RouteOf(c) == OpenDetail && GoText.IsInt64(n)
    requires RouteSpec(st, c, handle, fetch).actions[|RouteSpec(st, c, handle, fetch).actions| - 1].Send?
    ensures var after := RouteSpec(st, c, handle, fetch).stores;
      && c.value in after.creators
      && RouteSpec(after, CIDV2(DetailCommand, Page, handle, GoText.Itoa(n)), handle, fetch).actions
         == [Navigator.Render(RecordStores(after), handle, n, DetailComponents, WebhookEdit)]
      && Navigator.Resolve(RecordStores(after), handle) == Success(after.creators[c.value])
  {
    OpenedSession(st, c, handle, fetch);
    DetailPageRoute(RouteSpec(st, c, handle, fetch).stores, handle, n, fetch);
  }

  /** Opening a creator that is shown leaves it stored and the new session pointing at it. */
  lemma OpenedSession(st: CreatorStores, c: CIDV2, handle: string, fetch: int -> Result<CreatorRecord, Err>)
    requires RouteOf(c) == OpenDetail
    requires RouteSpec(st, c, handle, fetch).actions[|RouteSpec(st, c, handle, fetch).actions| - 1].Send?
    ensures var after := RouteSpec(st, c, handle, fetch).stores;
      && c.value in after.creators
      && Navigator.Resolve(RecordStores(after), handle) == Success(after.creators[c.value])
  {
  }

  /** A detail page token for a session renders that page of the session's creator. */
  lemma DetailPageRoute(st: CreatorStores, handle: string, n: int, fetch: int -> Result<CreatorRecord, Err>)
    requires GoText.IsInt64(n)
    ensures RouteSpec(st, CIDV2(DetailCommand, Page, handle, GoText.Itoa(n)), handle, fetch).actions
         == [Navigator.Render(RecordStores(st), handle, n, DetailComponents, WebhookEdit)]
  {
    GoText.AtoiItoa(n);
  }
}
