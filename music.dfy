/**
 * The music search (handlers/searchcmd/search_music.go): erogs songs found by keyword, listed a
 * fixed number to a page, whose menu opens a song's page with its credits, the games it is used
 * in and a cover.
 *
 * The song store holds references: the page flow replaces the two "unknown" sentinels of the
 * stored record in place, so a later reader of the same record sees the replaced values. The
 * page size is the search_game.go constant searchGameListItemsPerPage; that file is not part of
 * this model, so the size is a parameter.
 */
module SearchMusic {
  import opened Wrappers
  import opened Errors
  import opened Cid
  import opened Transport
  import opened Cache
  import opened Views
  import Paging
  import Navigator
  import Base64Url
  import GoText
  import ErogsIds
  import Seqs

  const MusicCommand := "M2"
  const Unrecorded := "未收錄"

  /** erogs' play time and release date of a song it knows nothing about. */
  const NoPlayTime := "00:00:00"
  const NoReleaseDate := "0001-01-01"

  type PageSize = n: nat | n > 0 witness 1

  // ---- The song record ----

  /** One game a song is used in. */
  datatype GameCategory = GameCategory(gameName: string, gameModel: string, category: string, gameDMM: string)

  /**
   * The fields of erogs.Music the page uses. The credits are comma-separated lists; the average
   * score is carried as a number, its two-decimal text is not modelled.
   */
  datatype MusicData = MusicData(
    musicName: string, playTime: string, releaseDate: string, avgTokuten: real, tokutenCount: int,
    singers: string, lyrics: string, compositions: string, arrangements: string, album: string,
    games: seq<GameCategory>)

  /** The record with the unknown play time and release date replaced by the "unrecorded" text. */
  function Cleaned(d: MusicData): MusicData {
    d.(playTime := if d.playTime == NoPlayTime then Unrecorded else d.playTime,
       releaseDate := if d.releaseDate == NoReleaseDate then Unrecorded else d.releaseDate)
  }

  /** A stored erogs.Music: the two fields the page flow rewrites are mutable. */
  class Music {
    const musicName: string
    var playTime: string
    var releaseDate: string
    const avgTokuten: real
    const tokutenCount: int
    const singers: string
    const lyrics: string
    const compositions: string
    const arrangements: string
    const album: string
    const games: seq<GameCategory>

    constructor (d: MusicData)
      ensures Data() == d
    {
      musicName, playTime, releaseDate := d.musicName, d.playTime, d.releaseDate;
      avgTokuten, tokutenCount := d.avgTokuten, d.tokutenCount;
      singers, lyrics, compositions, arrangements, album := d.singers, d.lyrics, d.compositions, d.arrangements, d.album;
      games := d.games;
    }

    function Data(): MusicData
      reads this
    {
      MusicData(musicName, playTime, releaseDate, avgTokuten, tokutenCount, singers, lyrics, compositions,
                arrangements, album, games)
    }

    /** The two sentinel checks of the page flow, applied to this record. */
    method ReplaceSentinels()
      modifies this
      ensures Data() == Cleaned(old(Data()))
    {
      if playTime == NoPlayTime {
        playTime := Unrecorded;
      }
      if releaseDate == NoReleaseDate {
        releaseDate := Unrecorded;
      }
    }
  }

  /** What the song store holds under a key, read through the reference. */
  function CachedData(m: map<string, Music>, key: string): Option<MusicData>
    reads m.Values
  {
    if key in m then Some(m[key].Data()) else None
  }

  /**
   * The replacement touches nothing else, never leaves a sentinel, and a second replacement
   * changes nothing.
   */
  lemma CleanedRules(d: MusicData)
    ensures Cleaned(Cleaned(d)) == Cleaned(d)
    ensures Cleaned(d).playTime != NoPlayTime && Cleaned(d).releaseDate != NoReleaseDate
    ensures Cleaned(d).playTime == Unrecorded <==> d.playTime == NoPlayTime || d.playTime == Unrecorded
    ensures Cleaned(d).releaseDate == Unrecorded <==> d.releaseDate == NoReleaseDate || d.releaseDate == Unrecorded
    ensures Cleaned(d).(playTime := d.playTime, releaseDate := d.releaseDate) == d
  {
  }

  // ---- The song page ----

  /** A credit list split at commas, present only when its first piece is not empty. */
  function Section(s: string): Option<seq<string>> {
    var parts := GoText.Split(s, ',');
    if parts[0] != "" then Some(parts) else None
  }

  datatype GameLine = GameLine(gameName: string, gameModel: string, category: string)

  datatype MusicDetail = MusicDetail(
    name: string, playTime: string, releaseDate: string, avgTokuten: real, tokutenCount: int,
    singers: Option<seq<string>>, lyrics: Option<seq<string>>, compositions: Option<seq<string>>,
    arrangements: Option<seq<string>>, games: seq<GameLine>, album: Option<seq<string>>,
    thumb: Thumb, back: BackButton)

  function GameLineOf(g: GameCategory): GameLine {
    GameLine(g.gameName, g.gameModel, g.category)
  }

  /** The DMM code of the first game whose code is not blank. */
  function FirstDmm(games: seq<GameCategory>): Option<string>
    decreases |games|
  {
    if games == [] then None
    else
      match FirstDmm(games[..|games| - 1])
      case Some(code) => Some(code)
      case None =>
        var last := games[|games| - 1];
        if GoText.TrimSpace(last.gameDMM) != "" then Some(last.gameDMM) else None
  }

  function DetailThumb(games: seq<GameCategory>): Thumb {
    match FirstDmm(games)
    case None => Placeholder
    case Some(code) => Dmm(code)
  }

  /** The page of a record whose sentinels have been replaced, with a back button to the list. */
  function DetailOf(d: MusicData, listID: string): MusicDetail {
    MusicDetail(d.musicName, d.playTime, d.releaseDate, d.avgTokuten, d.tokutenCount,
                Section(d.singers), Section(d.lyrics), Section(d.compositions), Section(d.arrangements),
                seq(|d.games|, i requires 0 <= i < |d.games| => GameLineOf(d.games[i])), Section(d.album),
                DetailThumb(d.games), BackButton(MusicCommand, listID))
  }

  method BuildDetail(d: MusicData, listID: string) returns (v: MusicDetail)
    ensures v == DetailOf(d, listID)
  {
    var lines: seq<GameLine> := [];
    var found: Option<string> := None;
    var i := 0;
    while i < |d.games|
      invariant 0 <= i <= |d.games|
      invariant lines == seq(i, k requires 0 <= k < i => GameLineOf(d.games[k]))
      invariant found == FirstDmm(d.games[..i])
    {
      assert d.games[..i + 1][..i] == d.games[..i];
      var g := d.games[i];
      lines := lines + [GameLine(g.gameName, g.gameModel, g.category)];
      if found.None? && GoText.TrimSpace(g.gameDMM) != "" {
        found := Some(g.gameDMM);
      }
      i := i + 1;
    }
    assert d.games[..i] == d.games;
    var thumb := Placeholder;
    if found.Some? {
      thumb := Dmm(found.value);
    }
    v := MusicDetail(d.musicName, d.playTime, d.releaseDate, d.avgTokuten, d.tokutenCount,
                     Section(d.singers), Section(d.lyrics), Section(d.compositions), Section(d.arrangements),
                     lines, Section(d.album), thumb, BackButton(MusicCommand, listID));
  }

  // ---- The list page (buildSearchMusicComponents) ----

  datatype MusicGame = MusicGame(name: string, dmm: string)

  /** One song of erogs.MusicList. */
  datatype MusicList = MusicList(id: int, name: string, category: string, games: seq<MusicGame>)

  datatype MusicRow = MusicRow(number: int, name: string, category: string, gameNames: seq<string>, thumb: Thumb)

  datatype MusicListPage = MusicListPage(total: nat, rows: seq<MusicRow>, menu: Menu, pager: Pager)

  datatype MusicView = List(list: MusicListPage) | Detail(detail: MusicDetail)

  /** The category in parentheses, or nothing when it is blank. */
  function CategorySuffix(category: string): string {
    if GoText.TrimSpace(category) != "" then "(" + category + ")" else ""
  }

  /** The names of the games that are not blank, in order. */
  function GameNames(games: seq<MusicGame>): seq<string>
    decreases |games|
  {
    if games == [] then []
    else
      var last := games[|games| - 1];
      GameNames(games[..|games| - 1]) + (if GoText.TrimSpace(last.name) != "" then [last.name] else [])
  }

  /** Only the first game's DMM code is used, trimmed. */
  function ListThumb(games: seq<MusicGame>): Thumb {
    if |games| > 0 && GoText.TrimSpace(games[0].dmm) != "" then Dmm(GoText.TrimSpace(games[0].dmm)) else Placeholder
  }

  function RowOf(number: int, r: MusicList): MusicRow {
    MusicRow(number, r.name, CategorySuffix(r.category), GameNames(r.games), ListThumb(r.games))
  }

  function ItemOf(r: MusicList): MenuItem {
    MenuItem(r.name + CategorySuffix(r.category), ErogsIds.MenuId(r.id))
  }

  /** The list page; a page outside the list panics on the slice. The page count has no floor. */
  function ListComponents(res: seq<MusicList>, page: int, cacheID: string, perPage: PageSize): Outcome<MusicView> {
    match Paging.PageItems(res, perPage, page)
    case None => Panics
    case Some(paged) =>
      var start := Paging.Start(page, perPage);
      Built(List(MusicListPage(|res|,
        seq(|paged|, k requires 0 <= k < |paged| => RowOf(start + k + 1, paged[k])),
        Menu(MusicCommand, cacheID, seq(|paged|, k requires 0 <= k < |paged| => ItemOf(paged[k]))),
        Pager(MusicCommand, page, Paging.PageCount(|res|, perPage), cacheID))))
  }

  function ListBuilder(perPage: PageSize): Navigator.Builder<seq<MusicList>, MusicView> {
    (res: seq<MusicList>, page: int, cacheID: string) => ListComponents(res, page, cacheID, perPage)
  }

  method CollectNames(games: seq<MusicGame>) returns (names: seq<string>)
    ensures names == GameNames(games)
  {
    names := [];
    var i := 0;
    while i < |games|
      invariant 0 <= i <= |games|
      invariant names == GameNames(games[..i])
    {
      assert games[..i + 1][..i] == games[..i];
      if GoText.TrimSpace(games[i].name) != "" {
        names := names + [games[i].name];
      }
      i := i + 1;
    }
    assert games[..i] == games;
  }

  method BuildRow(number: int, r: MusicList) returns (row: MusicRow, item: MenuItem)
    ensures row == RowOf(number, r) && item == ItemOf(r)
  {
    var category := "";
    if GoText.TrimSpace(r.category) != "" {
      category := "(" + r.category + ")";
    }
    var thumb := Placeholder;
    var names: seq<string> := [];
    if |r.games| > 0 {
      names := CollectNames(r.games);
      var cleanDmm := GoText.TrimSpace(r.games[0].dmm);
      if cleanDmm != "" {
        thumb := Dmm(cleanDmm);
      }
    }
    row := MusicRow(number, r.name, category, names, thumb);
    item := MenuItem(r.name + category, "e" + GoText.Itoa(r.id));
  }

  method BuildRows(paged: seq<MusicList>, start: int) returns (rows: seq<MusicRow>, items: seq<MenuItem>)
    ensures rows == seq(|paged|, k requires 0 <= k < |paged| => RowOf(start + k + 1, paged[k]))
    ensures items == seq(|paged|, k requires 0 <= k < |paged| => ItemOf(paged[k]))
  {
    ghost var rowAt := (k: int, r: MusicList) => RowOf(start + k + 1, r);
    ghost var itemAt := (k: int, r: MusicList) => ItemOf(r);
    rows, items := [], [];
    var idx := 0;
    while idx < |paged|
      invariant 0 <= idx <= |paged|
      invariant Seqs.MapsPrefix(rows, paged, rowAt, idx) && Seqs.MapsPrefix(items, paged, itemAt, idx)
    {
      var row, item := BuildRow(start + idx + 1, paged[idx]);
      Seqs.MapsStep(rows, paged, rowAt, idx, row);
      Seqs.MapsStep(items, paged, itemAt, idx, item);
      rows := rows + [row];
      items := items + [item];
      idx := idx + 1;
    }
    Seqs.MapsAll(rows, paged, rowAt, |paged|);
    Seqs.MapsAll(items, paged, itemAt, |paged|);
  }

  method BuildList(res: seq<MusicList>, page: int, cacheID: string, perPage: PageSize) returns (o: Outcome<MusicView>)
    ensures o == ListComponents(res, page, cacheID, perPage)
  {
    var totalPages := Paging.TotalPages(|res|, perPage);
    var start, window := Paging.Window(res, perPage, page);
    if window.None? {
      return Panics;
    }
    var rows, items := BuildRows(window.value, start);
    return Built(List(MusicListPage(|res|, rows, Menu(MusicCommand, cacheID, items),
                                    Pager(MusicCommand, page, totalPages, cacheID))));
  }

  // ---- Routing and flows ----

  /** A load: the record found or fetched, whether it was fetched, and the actions it took. */
  datatype Load = Load(data: Option<MusicData>, fetched: bool, actions: seq<Action<MusicView>>)

  /**
   * What a selection did to the song store: `stored` is the record now under the selected value
   * when the flow changed or added it, and `fetched` says that it was added.
   */
  datatype Selection = Selection(stored: Option<MusicData>, fetched: bool, actions: seq<Action<MusicView>>)

  /**
   * erogsSearchMusicWithSelectMenuCIDV2 after its acknowledgment, given the record `cached` under
   * the selected value: the loading edit; on a miss the value's erogs id, or its Atoi error with
   * no fetch, then erogs by id (`fetch`), stored under the value as received; the sentinels are
   * replaced in the stored record; then the song page. No session is checked or created.
   */
  function SelectSpec(cached: Option<MusicData>, c: CIDV2, fetch: int -> Result<MusicData, Err>): Selection {
    if c.behavior != SelectMenu then Selection(None, false, [Report(BehaviorIdError, EditComplex)])
    else OpenSpec(cached, c, fetch)
  }

  /**
   * The record loaded under a selected value, given the record `cached` there: the stored one;
   * on a miss the value's erogs id, or its Atoi error with no fetch, then erogs by id (`fetch`).
   */
  function LoadSpec(cached: Option<MusicData>, value: string, fetch: int -> Result<MusicData, Err>): Load {
    match cached
    case Some(d) => Load(Some(d), false, [])
    case None =>
      match ErogsIds.NormaliseId(value)
      case Failure(e) => Load(None, false, [Report(e, EditComplex)])
      case Success(id) =>
        match fetch(id)
        case Failure(e) => Load(None, false, [FetchId(id), Report(e, EditComplex)])
        case Success(d) => Load(Some(d), true, [FetchId(id)])
  }

  /** The page flow of a select-menu token: the loading edit, the load, then the cleaned song page. */
  function OpenSpec(cached: Option<MusicData>, c: CIDV2, fetch: int -> Result<MusicData, Err>): Selection {
    var l := LoadSpec(cached, c.value, fetch);
    match l.data
    case None => Selection(None, false, [Loading] + l.actions)
    case Some(d) =>
      Selection(Some(Cleaned(d)), l.fetched, [Loading] + l.actions + [Send(EditComplex, Detail(DetailOf(Cleaned(d), c.cacheID)))])
  }


  datatype Request = Request(cid: Option<CIDV2>, keyword: Result<seq<Base64Url.byte>, Err>, handle: string)

  /** What erogs answers: the song search by keyword, a song by id. */
  datatype Clients = Clients(search: Result<seq<MusicList>, Err>, fetch: int -> Result<MusicData, Err>)

  /** The list stores after the interaction, the effect on the song store, and the actions. */
  datatype MusicStep = MusicStep(stores: Navigator.Stores<seq<MusicList>>, stored: Option<MusicData>, fetched: bool,
                                 actions: seq<Action<MusicView>>)

  /** The song store key an interaction can touch: a token's value. */
  function SelectedKey(rq: Request): string {
    if rq.cid.Some? then rq.cid.value.value else ""
  }

  /** SearchMusicV2: a token is routed by its behavior alone. */
  function SearchMusicSpec(st: Navigator.Stores<seq<MusicList>>, cached: Option<MusicData>, rq: Request, cl: Clients,
                           perPage: PageSize): MusicStep {
    match rq.cid
    case None =>
      var s := Navigator.SearchListSpec(st, rq.keyword, rq.handle, cl.search, ListBuilder(perPage));
      MusicStep(s.stores, None, false, s.actions)
    case Some(c) => ComponentSpec(st, cached, c, cl.fetch, perPage)
  }

  /** A component interaction, routed by its token's behavior alone. */
  function ComponentSpec(st: Navigator.Stores<seq<MusicList>>, cached: Option<MusicData>, c: CIDV2,
                         fetch: int -> Result<MusicData, Err>, perPage: PageSize): MusicStep {
    if c.behavior == SelectMenu then
      var s := SelectSpec(cached, c, fetch);
      MusicStep(st, s.stored, s.fetched, [DeferredUpdate] + s.actions)
    else MusicStep(st, None, false, ListTokenSpec(st, c, perPage))
  }

  /** Every other token works on the song list: a page token, a back-to-home token, or the mismatch error. */
  function ListTokenSpec(st: Navigator.Stores<seq<MusicList>>, c: CIDV2, perPage: PageSize): seq<Action<MusicView>> {
    match c.behavior
    case Page =>
      (match ToPage(c)
       case Failure(e) => [Report(e, EditComplex)]
       case Success(p) => Navigator.ChangePageSpec(st, p, ListBuilder(perPage)).actions)
    case BackToHome => Navigator.BackToHomeSpec(st, c, ListBuilder(perPage)).actions
    case _ => [Report(ErrCIDBehaviorMismatch, EditComplex)]
  }


  /**
   * The effect on the song store of an interaction that stored `stored` (after the sentinel
   * replacement) under `key`, by a fresh record when `fetched`: the stored record's data and
   * the store otherwise unchanged. That no other record changes is the flows' frame: they may
   * modify only the record under the key.
   */
  twostate predicate SongEffect(musics: CacheStore<Music>, key: string, stored: Option<MusicData>, fetched: bool)
    reads *
  {
    && (stored.Some? ==> key in musics.entries && musics.entries[key].Data() == stored.value)
    && (fetched ==> key in musics.entries && fresh(musics.entries[key])
                    && musics.entries == old(musics.entries)[key := musics.entries[key]])
    && (!fetched ==> musics.entries == old(musics.entries))
  }

  /** The record stored under `key`, the only one a selection may change. */
  function RecordAt(m: map<string, Music>, key: string): set<Music> {
    if key in m then {m[key]} else {}
  }

  /**
   * The record behind a selected value: the stored one, or on a miss the value's erogs id (its
   * Atoi error is reported, with no fetch), then erogs by id, stored under the value as received.
   */
  method LoadMusic(musics: CacheStore<Music>, log: Transcript<MusicView>, value: string,
                   fetch: int -> Result<MusicData, Err>) returns (res: Option<Music>)
    modifies musics, log
    ensures var l := LoadSpec(old(CachedData(musics.entries, value)), value, fetch);
      && log.actions == old(log.actions) + l.actions
      && res.Some? == l.data.Some?
      && (res.Some? ==> value in musics.entries && res.value == musics.entries[value] && res.value.Data() == l.data.value)
      && (l.fetched ==> res.Some? && fresh(res.value) && musics.entries == old(musics.entries)[value := res.value])
      && (!l.fetched ==> musics.entries == old(musics.entries))
  {
    var cached := musics.Lookup(value);
    if cached.Success? {
      return Some(cached.value);
    }
    var cleanStr := GoText.TrimPrefix(GoText.TrimPrefix(value, "E"), "e");
    var erogsID := GoText.Atoi(cleanStr);
    if erogsID.Failure? {
      log.Emit(Report(erogsID.error, EditComplex));
      return None;
    }
    log.Emit(FetchId(erogsID.value));
    var fetched := fetch(erogsID.value);
    if fetched.Failure? {
      log.Emit(Report(fetched.error, EditComplex));
      return None;
    }
    var m := new Music(fetched.value);
    musics.Set(value, m);
    return Some(m);
  }

  method SelectMusic(musics: CacheStore<Music>, log: Transcript<MusicView>, c: CIDV2, fetch: int -> Result<MusicData, Err>)
    modifies musics, log, RecordAt(musics.entries, c.value)
    ensures var s := SelectSpec(old(CachedData(musics.entries, c.value)), c, fetch);
      && log.actions == old(log.actions) + s.actions
      && SongEffect(musics, c.value, s.stored, s.fetched)
  {
    if c.behavior != SelectMenu {
      log.Emit(Report(BehaviorIdError, EditComplex));
    } else {
      OpenSong(musics, log, c, fetch);
    }
  }

  method OpenSong(musics: CacheStore<Music>, log: Transcript<MusicView>, c: CIDV2, fetch: int -> Result<MusicData, Err>)
    modifies musics, log, RecordAt(musics.entries, c.value)
    ensures var s := OpenSpec(old(CachedData(musics.entries, c.value)), c, fetch);
      && log.actions == old(log.actions) + s.actions
      && SongEffect(musics, c.value, s.stored, s.fetched)
  {
    ghost var before := CachedData(musics.entries, c.value);
    log.Emit(Loading);
    var loaded := LoadMusic(musics, log, c.value, fetch);
    if loaded.None? {
      return;
    }
    ShowSong(log, loaded.value, c.cacheID);
  }

  /** The sentinels replaced in the loaded record, then its page sent through the complex edit. */
  method ShowSong(log: Transcript<MusicView>, res: Music, cacheID: string)
    modifies log, res
    ensures res.Data() == Cleaned(old(res.Data()))
    ensures log.actions == old(log.actions) + [Send(EditComplex, Detail(DetailOf(res.Data(), cacheID)))]
  {
    res.ReplaceSentinels();
    var d := BuildDetail(res.Data(), cacheID);
    log.Emit(Send(EditComplex, Detail(d)));
  }

  method HandleComponent(index: SessionIndex, lists: CacheStore<seq<MusicList>>, musics: CacheStore<Music>,
                         log: Transcript<MusicView>, c: CIDV2, fetch: int -> Result<MusicData, Err>, perPage: PageSize)
    modifies index, lists, musics, log, RecordAt(musics.entries, c.value)
    ensures var s := ComponentSpec(Navigator.Stores(old(lists.entries), old(index.entries)),
                                   old(CachedData(musics.entries, c.value)), c, fetch, perPage);
      && Navigator.Stores(lists.entries, index.entries) == s.stores
      && log.actions == old(log.actions) + s.actions
      && SongEffect(musics, c.value, s.stored, s.fetched)
  {
    if c.behavior == SelectMenu {
      SelectComponent(musics, log, c, fetch);
    } else {
      ListToken(index, lists, log, c, perPage);
    }
  }

  /** A select-menu token: the deferred acknowledgment, then the page flow. */
  method SelectComponent(musics: CacheStore<Music>, log: Transcript<MusicView>, c: CIDV2, fetch: int -> Result<MusicData, Err>)
    modifies musics, log, RecordAt(musics.entries, c.value)
    ensures var s := SelectSpec(old(CachedData(musics.entries, c.value)), c, fetch);
      && log.actions == old(log.actions) + ([DeferredUpdate] + s.actions)
      && SongEffect(musics, c.value, s.stored, s.fetched)
  {
    log.Emit(DeferredUpdate);
    SelectMusic(musics, log, c, fetch);
  }

  method ListToken(index: SessionIndex, lists: CacheStore<seq<MusicList>>, log: Transcript<MusicView>, c: CIDV2,
                   perPage: PageSize)
    modifies log
    ensures log.actions == old(log.actions) + ListTokenSpec(Navigator.Stores(lists.entries, index.entries), c, perPage)
  {
    match c.behavior
    case Page =>
      var p := ToPage(c);
      if p.Failure? {
        log.Emit(Report(p.error, EditComplex));
        return;
      }
      Navigator.ChangePage(index, lists, log, p.value, ListBuilder(perPage));
    case BackToHome =>
      Navigator.BackToHome(index, lists, log, c, ListBuilder(perPage));
    case _ =>
      log.Emit(Report(ErrCIDBehaviorMismatch, EditComplex));
  }

  method SearchMusicV2(index: SessionIndex, lists: CacheStore<seq<MusicList>>, musics: CacheStore<Music>,
                       log: Transcript<MusicView>, rq: Request, cl: Clients, perPage: PageSize)
    modifies index, lists, musics, log, RecordAt(musics.entries, SelectedKey(rq))
    ensures var key := SelectedKey(rq);
      var s := SearchMusicSpec(Navigator.Stores(old(lists.entries), old(index.entries)),
                               old(CachedData(musics.entries, key)), rq, cl, perPage);
      && Navigator.Stores(lists.entries, index.entries) == s.stores
      && log.actions == old(log.actions) + s.actions
      && SongEffect(musics, key, s.stored, s.fetched)
  {
    if rq.cid.None? {
      Navigator.SearchList(index, lists, log, rq.keyword, rq.handle, cl.search, ListBuilder(perPage));
    } else {
      HandleComponent(index, lists, musics, log, rq.cid.value, cl.fetch, perPage);
    }
  }

  // ---- The list page ----

  /**
   * Every song found is on the page its position says: song i is row and menu entry i % perPage
   * of page i / perPage + 1, numbered i + 1, within the pager's count; its menu entry hands the
   * selection flow an id that reads back as the song's erogs id.
   */
  lemma ListShowsEverySong(res: seq<MusicList>, i: nat, cacheID: string, perPage: PageSize)
    requires i < |res|
    ensures var page := i / perPage + 1;
      var o := ListComponents(res, page, cacheID, perPage);
      && o.Built? && o.out.List? && 1 <= page <= o.out.list.pager.totalPages && o.out.list.total == |res|
      && i % perPage < |o.out.list.rows| && |o.out.list.rows| == |o.out.list.menu.items|
      && o.out.list.rows[i % perPage] == RowOf(i + 1, res[i])
      && o.out.list.menu.items[i % perPage] == ItemOf(res[i])
      && (GoText.IsInt64(res[i].id) ==> ErogsIds.NormaliseId(o.out.list.menu.items[i % perPage].id) == Success(res[i].id))
  {
    Paging.ItemPlacement(res, perPage, i);
    Paging.PageWithin(|res|, perPage, i);
    if GoText.IsInt64(res[i].id) {
      ErogsIds.NormaliseMenuId(res[i].id);
    }
  }

  /** Nothing found gives zero pages and an empty first page; a page before the first panics. */
  lemma ListEdges(res: seq<MusicList>, page: int, cacheID: string, perPage: PageSize)
    ensures |res| == 0 ==>
      var o := ListComponents(res, 1, cacheID, perPage);
      o.Built? && o.out.list.pager.totalPages == 0 && o.out.list.rows == [] && o.out.list.menu.items == []
    ensures page < 1 ==> ListComponents(res, page, cacheID, perPage) == Panics
  {
    if page < 1 {
      Paging.StartNonNegative(page, perPage);
    }
  }

  /** The game names of a row are exactly the names that are not blank, in order. */
  lemma {:induction false} GameNamesSpec(games: seq<MusicGame>)
    ensures forall x :: x in GameNames(games) ==> GoText.TrimSpace(x) != ""
    ensures forall i :: 0 <= i < |games| && GoText.TrimSpace(games[i].name) != "" ==> games[i].name in GameNames(games)
    ensures forall x :: x in GameNames(games) ==> exists i :: 0 <= i < |games| && games[i].name == x
    decreases |games|
  {
    if games != [] {
      var init := games[..|games| - 1];
      GameNamesSpec(init);
      assert forall i :: 0 <= i < |init| ==> init[i] == games[i];
    }
  }

  // ---- The song page ----

  /**
   * A credit section is absent exactly when the text is empty or starts with a comma; a present
   * one holds the comma-free pieces that make up the text.
   */
  lemma SectionRule(s: string)
    ensures Section(s).None? <==> s == "" || s[0] == ','
    ensures Section(s).Some? ==> GoText.Join(Section(s).value, ",") == s
    ensures Section(s).Some? ==> forall k :: 0 <= k < |Section(s).value| ==> ',' !in Section(s).value[k]
  {
    GoText.SplitFirstEmpty(s, ',');
    GoText.JoinSplit(s, ',');
    GoText.SplitPiecesFree(s, ',');
  }

  /** The cover is the first game with a DMM code that is not blank, or the placeholder when none has one. */
  lemma {:induction false} FirstDmmSpec(games: seq<GameCategory>)
    ensures FirstDmm(games).None? <==> forall i :: 0 <= i < |games| ==> GoText.TrimSpace(games[i].gameDMM) == ""
    ensures FirstDmm(games).Some? ==>
      exists i :: (0 <= i < |games| && games[i].gameDMM == FirstDmm(games).value
                   && GoText.TrimSpace(games[i].gameDMM) != "" && forall j :: 0 <= j < i ==> GoText.TrimSpace(games[j].gameDMM) == "")
    decreases |games|
  {
    if games != [] {
      var init := games[..|games| - 1];
      FirstDmmSpec(init);
      assert forall i :: 0 <= i < |init| ==> init[i] == games[i];
      if FirstDmm(init).Some? {
        var i :| 0 <= i < |init| && init[i].gameDMM == FirstDmm(init).value
          && GoText.TrimSpace(init[i].gameDMM) != "" && forall j :: 0 <= j < i ==> GoText.TrimSpace(init[j].gameDMM) == "";
        assert games[i] == init[i];
      }
    }
  }

  /**
   * A delivered song page never shows a sentinel, lists every game the song is used in, and its
   * back button names the music list under the token's session handle.
   */
  lemma SelectedPage(cached: Option<MusicData>, c: CIDV2, fetch: int -> Result<MusicData, Err>)
    ensures var s := SelectSpec(cached, c, fetch);
      var last := s.actions[|s.actions| - 1];
      last.Send? ==>
        && s.stored.Some? && last.out == Detail(DetailOf(s.stored.value, c.cacheID))
        && last.out.detail.playTime != NoPlayTime && last.out.detail.releaseDate != NoReleaseDate
        && |last.out.detail.games| == |s.stored.value.games|
        && last.out.detail.back == BackButton(MusicCommand, c.cacheID)
  {
    var s := SelectSpec(cached, c, fetch);
    if s.stored.Some? {
      match cached
      case Some(d) => CleanedRules(d);
      case None =>
        CleanedRules(fetch(ErogsIds.NormaliseId(c.value).value).value);
    }
  }

  // ---- Selecting a song ----

  /**
   * Choosing entry k of a list page selects that song: after the acknowledgment and the loading
   * edit, a song that is not stored is fetched from erogs by exactly its id.
   */
  lemma ChoiceFetchesSong(st: Navigator.Stores<seq<MusicList>>, rq: Request, cl: Clients, perPage: PageSize,
                          res: seq<MusicList>, page: int, k: nat)
    requires ListComponents(res, page, rq.handle, perPage).Built?
    requires k < |ListComponents(res, page, rq.handle, perPage).out.list.menu.items|
    requires rq.cid == Some(MenuChoice(ListComponents(res, page, rq.handle, perPage).out.list.menu, k))
    ensures 0 <= Paging.Start(page, perPage) + k < |res|
    ensures var r := res[Paging.Start(page, perPage) + k];
      var s := SearchMusicSpec(st, None, rq, cl, perPage);
      GoText.IsInt64(r.id) ==> |s.actions| == 4 && s.actions[..3] == [DeferredUpdate, Loading, FetchId(r.id)]
  {
    ChosenEntry(res, page, rq.handle, perPage, k);
    var r := res[Paging.Start(page, perPage) + k];
    if GoText.IsInt64(r.id) {
      SelectFetchesId(st, rq, cl, perPage, r.id);
    }
  }

  /** Entry k of a list page is the song at position start + k, under the page's own handle. */
  lemma ChosenEntry(res: seq<MusicList>, page: int, cacheID: string, perPage: PageSize, k: nat)
    requires ListComponents(res, page, cacheID, perPage).Built?
    requires k < |ListComponents(res, page, cacheID, perPage).out.list.menu.items|
    ensures 0 <= Paging.Start(page, perPage) + k < |res|
    ensures MenuChoice(ListComponents(res, page, cacheID, perPage).out.list.menu, k)
      == CIDV2(MusicCommand, SelectMenu, cacheID, ErogsIds.MenuId(res[Paging.Start(page, perPage) + k].id))
  {
  }

  /** A select token for a song that is not stored fetches it by exactly its id. */
  lemma SelectFetchesId(st: Navigator.Stores<seq<MusicList>>, rq: Request, cl: Clients, perPage: PageSize, id: int)
    requires GoText.IsInt64(id)
    requires rq.cid.Some? && rq.cid.value.behavior == SelectMenu && rq.cid.value.value == ErogsIds.MenuId(id)
    ensures var s := SearchMusicSpec(st, None, rq, cl, perPage);
      |s.actions| == 4 && s.actions[..3] == [DeferredUpdate, Loading, FetchId(id)]
  {
    ErogsIds.NormaliseMenuId(id);
  }

  /** A selected value that is not a number after the prefixes are stripped is reported, with no fetch. */
  lemma BadIdNoFetch(c: CIDV2, fetch: int -> Result<MusicData, Err>)
    requires c.behavior == SelectMenu && ErogsIds.NormaliseId(c.value).Failure?
    ensures var s := SelectSpec(None, c, fetch);
      && s.actions == [Loading, Report(ErogsIds.NormaliseId(c.value).error, EditComplex)]
      && s.stored.None? && !s.fetched
      && forall id :: FetchId(id) !in s.actions
  {
  }

  /**
   * A fetched song is stored under the selected value: choosing the same value again shows the
   * same page from the store without asking erogs, and leaves the record as it is.
   */
  lemma MissThenHit(c: CIDV2, fetch: int -> Result<MusicData, Err>, later: int -> Result<MusicData, Err>)
    requires c.behavior == SelectMenu
    ensures var first := SelectSpec(None, c, fetch);
      var second := SelectSpec(first.stored, c, later);
      first.fetched ==>
        && second.stored == first.stored && !second.fetched
        && second.actions == [Loading, first.actions[2]]
  {
    var first := SelectSpec(None, c, fetch);
    if first.fetched {
      CleanedRules(fetch(ErogsIds.NormaliseId(c.value).value).value);
    }
  }

  /**
   * The store key is the value as received, not the id: "e1", "E1" and "1" name the same erogs
   * song but are three keys, each fetched on its first selection.
   */
  lemma RawKeys(id: int, cacheID: string, fetch: int -> Result<MusicData, Err>)
    requires GoText.IsInt64(id) && id >= 0
    ensures var lower := SelectSpec(None, CIDV2(MusicCommand, SelectMenu, cacheID, "e" + GoText.Itoa(id)), fetch);
      var upper := SelectSpec(None, CIDV2(MusicCommand, SelectMenu, cacheID, "E" + GoText.Itoa(id)), fetch);
      var bare := SelectSpec(None, CIDV2(MusicCommand, SelectMenu, cacheID, GoText.Itoa(id)), fetch);
      && lower.actions[1] == FetchId(id) && upper.actions[1] == FetchId(id) && bare.actions[1] == FetchId(id)
      && "e" + GoText.Itoa(id) != "E" + GoText.Itoa(id) && "e" + GoText.Itoa(id) != GoText.Itoa(id)
  {
    ErogsIds.NormaliseMenuId(id);
    ErogsIds.NormaliseOtherForms(id);
    assert ErogsIds.MenuId(id) == "e" + GoText.Itoa(id);
    assert ("e" + GoText.Itoa(id))[0] == 'e' && ("E" + GoText.Itoa(id))[0] == 'E';
  }

  // ---- Routing ----

  /**
   * SearchMusicV2 routes a token by its behavior alone: the command id plays no part; a detail
   * button token is a mismatch; a token never changes the list store or the sessions, and only a
   * selection can touch the song store.
   */
  lemma Routing(st: Navigator.Stores<seq<MusicList>>, cached: Option<MusicData>, rq: Request, cl: Clients,
                perPage: PageSize, other: string)
    ensures rq.cid.Some? ==>
      SearchMusicSpec(st, cached, rq.(cid := Some(rq.cid.value.(commandID := other))), cl, perPage)
        == SearchMusicSpec(st, cached, rq, cl, perPage)
    ensures rq.cid.Some? && rq.cid.value.behavior == DetailBtn ==>
      SearchMusicSpec(st, cached, rq, cl, perPage) == MusicStep(st, None, false, [Report(ErrCIDBehaviorMismatch, EditComplex)])
    ensures rq.cid.Some? ==> SearchMusicSpec(st, cached, rq, cl, perPage).stores == st
    ensures (rq.cid.None? || rq.cid.value.behavior != SelectMenu) ==>
      var s := SearchMusicSpec(st, cached, rq, cl, perPage);
      s.stored.None? && !s.fetched
  {
  }
}
