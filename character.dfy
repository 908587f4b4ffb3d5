/**
 * The character search (handlers/search_character.go): a vndb character list, ten to a page,
 * with a character menu and page controls; the detail page of the character picked from the
 * menu, with a button back to the list; and a Bangumi lookup that answers with one character
 * and keeps no session.
 *
 * vndb.RolePriority, the ranking by which a character's appearances are ordered, is a
 * parameter `rank` (a missing role ranks 0, as a Go map lookup gives). The names that
 * vndb.Role, vndb.Sex and vndb.Gender give the codes are not part of this model: the pages
 * carry the codes.
 */
module SearchCharacter {
  import opened Wrappers
  import opened Errors
  import opened Cid
  import opened Transport
  import opened Cache
  import opened Views
  import Paging
  import Sorting
  import Navigator
  import Base64Url
  import GoText
  import Shared
  import Seqs

  const PerPage: nat := 10
  const ListCommand := "H1"

  /** The text shown for a value vndb or Bangumi does not have. */
  const Unrecorded := "未收錄"
  const NoDescription := "無角色敘述"

  datatype VnTitle = VnTitle(title: string, main: bool)

  /** One appearance of a character: the VN, its titles, the character's role, the spoiler level. */
  datatype CharacterVn = CharacterVn(title: string, titles: seq<VnTitle>, role: string, spoiler: int)

  /** vndb.CharacterSearchResponse, the record of both the list and the detail page. */
  datatype Character = Character(
    id: string, name: string, original: string, imageURL: string,
    height: int, weight: int, bust: int, waist: int, hips: int, age: Option<int>,
    birthday: (int, int), sex: (string, string), gender: (string, string),
    aliases: seq<string>, vas: seq<string>, bloodType: string, description: string,
    vns: seq<CharacterVn>)

  /** bangumi.Character. */
  datatype BangumiCharacter = BangumiCharacter(
    name: string, nameCN: string, aliases: seq<string>, cv: seq<string>, birthDay: string,
    gender: string, height: string, weight: string, age: string, bloodType: string, bwh: string,
    summary: string, image: string, games: seq<string>, other: seq<string>)

  // ---- Appearances ----

  /** The first title marked main, or the VN's own title when none is. */
  function MainTitle(title: string, titles: seq<VnTitle>): (r: string)
    ensures (forall i :: 0 <= i < |titles| ==> !titles[i].main) ==> r == title
    ensures forall i :: 0 <= i < |titles| && titles[i].main && (forall j :: 0 <= j < i ==> !titles[j].main)
                        ==> r == titles[i].title
  {
    if titles == [] then title
    else if titles[0].main then titles[0].title
    else
      var r := MainTitle(title, titles[1..]);
      assert forall i :: 1 <= i < |titles| ==> titles[1..][i - 1] == titles[i];
      r
  }

  method FindMainTitle(vn: CharacterVn) returns (t: string)
    ensures t == MainTitle(vn.title, vn.titles)
  {
    var i := 0;
    while i < |vn.titles|
      invariant 0 <= i <= |vn.titles|
      invariant MainTitle(vn.title, vn.titles[i..]) == MainTitle(vn.title, vn.titles)
    {
      if vn.titles[i].main {
        return vn.titles[i].title;
      }
      assert vn.titles[i..][1..] == vn.titles[i + 1..];
      i := i + 1;
    }
    return vn.title;
  }

  /** sort.Slice's order: a lower RolePriority first. */
  function RankOrder(rank: string -> int): (CharacterVn, CharacterVn) -> bool {
    (a: CharacterVn, b: CharacterVn) => rank(a.role) <= rank(b.role)
  }

  lemma RankOrderTotal(rank: string -> int)
    ensures Sorting.TotalPreorder(RankOrder(rank))
  {
  }

  /** A character's appearances by role priority, none lost. */
  function SortedVns(rank: string -> int, vns: seq<CharacterVn>): (r: seq<CharacterVn>)
    ensures Sorting.SortedBy(r, RankOrder(rank))
    ensures multiset(r) == multiset(vns) && |r| == |vns|
  {
    RankOrderTotal(rank);
    Sorting.SortBy(vns, RankOrder(rank))
  }

  // ---- The list page (buildSearchCharacterComponents) ----

  datatype VnPart = VnPart(title: string, role: string)

  datatype CharacterRow = CharacterRow(number: int, name: string, vns: seq<VnPart>, thumb: Thumb)

  datatype CharacterListPage = CharacterListPage(total: nat, rows: seq<CharacterRow>, menu: Menu, pager: Pager)

  /** The name of a list entry: the original name when there is one. */
  function ListName(c: Character): string {
    if c.original != "" then c.original else c.name
  }

  /** An appearance as a list row names it: its main title and its role. */
  function PartOf(vn: CharacterVn): VnPart {
    VnPart(MainTitle(vn.title, vn.titles), vn.role)
  }

  /** The first two appearances by role priority. */
  function VnParts(rank: string -> int, vns: seq<CharacterVn>): seq<VnPart> {
    var sorted := SortedVns(rank, vns);
    var n := Paging.Min(2, |sorted|);
    seq(n, i requires 0 <= i < n => PartOf(sorted[i]))
  }

  /** The trimmed picture URL, or the placeholder when it is blank. */
  function ListThumb(url: string): Thumb {
    var t := GoText.TrimSpace(url);
    if t == "" then Placeholder else Url(t)
  }

  function ListRow(rank: string -> int, number: int, c: Character): CharacterRow {
    CharacterRow(number, ListName(c), VnParts(rank, c.vns), ListThumb(c.imageURL))
  }

  /** Page `page` of the list for session `cacheID`; a nil list is an empty one. */
  function ListComponents(rank: string -> int, res: seq<Character>, page: int, cacheID: string): Outcome<CharacterView> {
    match Paging.PageItems(res, PerPage, page)
    case None => Panics
    case Some(paged) =>
      var start := Paging.Start(page, PerPage);
      Built(List(CharacterListPage(|res|,
        seq(|paged|, k requires 0 <= k < |paged| => ListRow(rank, start + k + 1, paged[k])),
        Menu(ListCommand, cacheID, seq(|paged|, k requires 0 <= k < |paged| => MenuItem(ListName(paged[k]), paged[k].id))),
        Pager(ListCommand, page, Paging.FlooredPageCount(|res|, PerPage), cacheID))))
  }

  /** The list builder as the flows pass it. */
  function ListBuilder(rank: string -> int): Navigator.Builder<seq<Character>, CharacterView> {
    (res: seq<Character>, page: int, cacheID: string) => ListComponents(rank, res, page, cacheID)
  }

  method BuildVnParts(rank: string -> int, vns: seq<CharacterVn>) returns (parts: seq<VnPart>)
    ensures parts == VnParts(rank, vns)
  {
    var sorted := SortedVns(rank, vns);
    ghost var partAt := (j: int, vn: CharacterVn) => PartOf(vn);
    parts := [];
    var i := 0;
    while i < |sorted| && i < 2
      invariant 0 <= i <= Paging.Min(2, |sorted|)
      invariant Seqs.MapsPrefix(parts, sorted, partAt, i)
    {
      var title := FindMainTitle(sorted[i]);
      Seqs.MapsStep(parts, sorted, partAt, i, VnPart(title, sorted[i].role));
      parts := parts + [VnPart(title, sorted[i].role)];
      i := i + 1;
    }
    Seqs.MapsAll(parts, sorted, partAt, i);
  }

  method BuildListRow(rank: string -> int, number: int, r: Character) returns (row: CharacterRow)
    ensures row == ListRow(rank, number, r)
  {
    var nameData := r.name;
    if r.original != "" {
      nameData := r.original;
    }
    var parts := BuildVnParts(rank, r.vns);
    var thumbnailURL := GoText.TrimSpace(r.imageURL);
    var thumb := if thumbnailURL == "" then Placeholder else Url(thumbnailURL);
    row := CharacterRow(number, nameData, parts, thumb);
  }

  method BuildListRows(rank: string -> int, paged: seq<Character>, start: int) returns (rows: seq<CharacterRow>)
    ensures rows == seq(|paged|, k requires 0 <= k < |paged| => ListRow(rank, start + k + 1, paged[k]))
  {
    ghost var rowAt := (k: int, r: Character) => ListRow(rank, start + k + 1, r);
    rows := [];
    var idx := 0;
    while idx < |paged|
      invariant 0 <= idx <= |paged|
      invariant Seqs.MapsPrefix(rows, paged, rowAt, idx)
    {
      var row := BuildListRow(rank, start + idx + 1, paged[idx]);
      Seqs.MapsStep(rows, paged, rowAt, idx, row);
      rows := rows + [row];
      idx := idx + 1;
    }
    Seqs.MapsAll(rows, paged, rowAt, idx);
  }

  method BuildListMenu(paged: seq<Character>) returns (items: seq<MenuItem>)
    ensures items == seq(|paged|, k requires 0 <= k < |paged| => MenuItem(ListName(paged[k]), paged[k].id))
  {
    ghost var itemAt := (k: int, r: Character) => MenuItem(ListName(r), r.id);
    items := [];
    var idx := 0;
    while idx < |paged|
      invariant 0 <= idx <= |paged|
      invariant Seqs.MapsPrefix(items, paged, itemAt, idx)
    {
      var item := MenuItem(ListName(paged[idx]), paged[idx].id);
      Seqs.MapsStep(items, paged, itemAt, idx, item);
      items := items + [item];
      idx := idx + 1;
    }
    Seqs.MapsAll(items, paged, itemAt, idx);
  }

  method BuildListComponents(rank: string -> int, res: seq<Character>, page: int, cacheID: string)
    returns (o: Outcome<CharacterView>)
    ensures o == ListComponents(rank, res, page, cacheID)
  {
    var totalItems := |res|;
    var totalPages := Paging.TotalPages(totalItems, PerPage);
    if totalPages == 0 {
      totalPages := 1;
    }
    var start, window := Paging.Window(res, PerPage, page);
    if window.None? {
      return Panics;
    }
    var rows := BuildListRows(rank, window.value, start);
    var items := BuildListMenu(window.value);
    return Built(List(CharacterListPage(totalItems, rows, Menu(ListCommand, cacheID, items),
                                        Pager(ListCommand, page, totalPages, cacheID))));
  }

  // ---- The detail page (vndbSearchCharacterWithSelectMenuCIDV2) ----

  /** A pair of codes as shown: missing, one value, or the first with the second behind a spoiler. */
  datatype Duo = NotRecorded | One(code: string) | Spoiled(shown: string, hidden: string)

  /** The description: the fixed text for none, or vndb.ConvertBBCodeToMarkdown of the raw text. */
  datatype Description = Undescribed | Markdown(bbcode: string)

  /** A line of "appears in": the fixed text for none, or a VN with the role, hidden if a spoiler. */
  datatype VnLine = Unlisted | Line(title: string, role: string, hidden: bool)

  datatype CharacterDetail = CharacterDetail(
    title: string, aliases: string, cv: string, birthday: string, sex: Duo, gender: Duo,
    height: string, weight: string, age: string, bloodType: string, bwh: string,
    description: Description, appearances: seq<VnLine>, thumb: Thumb, back: BackButton)

  /** bangumiSearchCharacter's page. */
  datatype BangumiPage = BangumiPage(
    title: string, aliases: string, cv: string, birthday: string, gender: string, heightWeight: string,
    age: string, bloodType: string, bwh: string, description: string, games: string, other: string, thumb: Thumb)

  datatype CharacterView = List(list: CharacterListPage) | Detail(detail: CharacterDetail) | Bangumi(page: BangumiPage)

  function Fallback(s: string): string {
    if s == "" then Unrecorded else s
  }

  function DetailTitle(c: Character): string {
    if c.original != "" then c.original + " (" + c.name + ")" else c.name
  }

  function Measure(n: int, unit: string): string {
    if n != 0 then GoText.Itoa(n) + unit else Unrecorded
  }

  function BwhText(bust: int, waist: int, hips: int): string {
    if bust != 0 && waist != 0 && hips != 0
    then GoText.Itoa(bust) + "/" + GoText.Itoa(waist) + "/" + GoText.Itoa(hips)
    else Unrecorded
  }

  function AgeText(age: Option<int>): string {
    match age
    case None => Unrecorded
    case Some(a) => GoText.Itoa(a)
  }

  function BirthdayText(day: (int, int)): string {
    if day != (0, 0) then GoText.Itoa(day.0) + "月" + GoText.Itoa(day.1) + "號" else Unrecorded
  }

  function DuoOf(pair: (string, string)): Duo {
    if pair == ("", "") then NotRecorded
    else if pair.0 != pair.1 then Spoiled(pair.0, pair.1)
    else One(pair.0)
  }

  function AliasesText(aliases: seq<string>): string {
    if |aliases| > 0 then GoText.Join(aliases, "/") else Unrecorded
  }

  function DescriptionOf(d: string): Description {
    if d == "" then Undescribed else Markdown(d)
  }

  function VnLineOf(vn: CharacterVn): VnLine {
    Line(MainTitle(vn.title, vn.titles), vn.role, vn.spoiler != 0)
  }

  /** One line per appearance, in the given order. */
  function LinesOf(vns: seq<CharacterVn>): seq<VnLine> {
    seq(|vns|, i requires 0 <= i < |vns| => VnLineOf(vns[i]))
  }

  /** Every appearance by role priority, or the single "none" line. */
  function VnLines(rank: string -> int, vns: seq<CharacterVn>): seq<VnLine> {
    if |vns| == 0 then [Unlisted] else LinesOf(SortedVns(rank, vns))
  }

  /** The detail page of `res`, with a back button to the list session `listID`. */
  function DetailView(rank: string -> int, caller: Shared.Caller, allowList: set<string>,
                      res: Character, listID: string): CharacterDetail {
    CharacterDetail(DetailTitle(res), AliasesText(res.aliases), Fallback(GoText.Join(res.vas, "/")),
                    BirthdayText(res.birthday), DuoOf(res.sex), DuoOf(res.gender),
                    Measure(res.height, "cm"), Measure(res.weight, "kg"), AgeText(res.age),
                    Fallback(res.bloodType), BwhText(res.bust, res.waist, res.hips),
                    DescriptionOf(res.description), VnLines(rank, res.vns),
                    GatedThumb(caller, allowList, res.imageURL), BackButton(ListCommand, listID))
  }

  method BuildVnLines(rank: string -> int, vns: seq<CharacterVn>) returns (lines: seq<VnLine>)
    ensures lines == VnLines(rank, vns)
  {
    if |vns| == 0 {
      return [Unlisted];
    }
    var sorted := SortedVns(rank, vns);
    ghost var lineAt := (j: int, vn: CharacterVn) => VnLineOf(vn);
    lines := [];
    var i := 0;
    while i < |sorted|
      invariant 0 <= i <= |sorted|
      invariant Seqs.MapsPrefix(lines, sorted, lineAt, i)
    {
      var title := FindMainTitle(sorted[i]);
      var line := Line(title, sorted[i].role, sorted[i].spoiler != 0);
      Seqs.MapsStep(lines, sorted, lineAt, i, line);
      lines := lines + [line];
      i := i + 1;
    }
    Seqs.MapsAll(lines, sorted, lineAt, i);
  }

  method BuildDetail(rank: string -> int, caller: Shared.Caller, allowList: set<string>,
                     res: Character, listID: string) returns (d: CharacterDetail)
    ensures d == DetailView(rank, caller, allowList, res, listID)
  {
    var lines := BuildVnLines(rank, res.vns);
    var cvData := GoText.Join(res.vas, "/");
    if cvData == "" {
      cvData := Unrecorded;
    }
    d := CharacterDetail(DetailTitle(res), AliasesText(res.aliases), cvData,
                         BirthdayText(res.birthday), DuoOf(res.sex), DuoOf(res.gender),
                         Measure(res.height, "cm"), Measure(res.weight, "kg"), AgeText(res.age),
                         Fallback(res.bloodType), BwhText(res.bust, res.waist, res.hips),
                         DescriptionOf(res.description), lines,
                         GatedThumb(caller, allowList, res.imageURL), BackButton(ListCommand, listID));
  }

  // ---- The Bangumi page (bangumiSearchCharacter) ----

  function BangumiTitle(b: BangumiCharacter): string {
    if b.nameCN != "" then b.name + " (" + b.nameCN + ")" else b.name
  }

  function HeightWeight(height: string, weight: string): string {
    if height == "" && weight == "" then Unrecorded else height + " / " + weight
  }

  function Lines(items: seq<string>): string {
    if |items| > 0 then GoText.Join(items, "\n") else Unrecorded
  }

  function BangumiView(caller: Shared.Caller, allowList: set<string>, b: BangumiCharacter): BangumiPage {
    BangumiPage(BangumiTitle(b), AliasesText(b.aliases), Fallback(GoText.Join(b.cv, "/")), Fallback(b.birthDay),
                Fallback(b.gender), HeightWeight(b.height, b.weight), Fallback(b.age), Fallback(b.bloodType),
                Fallback(b.bwh), if b.summary == "" then NoDescription else b.summary,
                Lines(b.games), Lines(b.other), GatedThumb(caller, allowList, b.image))
  }

  // ---- Routing and flows ----

  /** The four vndb character stores beside the session index. */
  datatype CharacterStores = CharacterStores(lists: map<string, seq<Character>>, characters: map<string, Character>,
                                             bangumi: map<string, BangumiCharacter>, sessions: map<string, string>)

  datatype CharacterStep = CharacterStep(stores: CharacterStores, actions: seq<Action<CharacterView>>)

  function ListStores(st: CharacterStores): Navigator.Stores<seq<Character>> {
    Navigator.Stores(st.lists, st.sessions)
  }

  /**
   * The switch on the second character of the command id and the behavior; a command id
   * shorter than two characters makes the index expression panic.
   */
  datatype Route = PageRoute | SelectRoute | HomeRoute | Mismatch | ShortCommand

  function RouteOf(c: CIDV2): Route {
    if |c.commandID| < 2 then ShortCommand
    else if c.commandID[1] == '1' && c.behavior == Page then PageRoute
    else if c.commandID[1] == '1' && c.behavior == SelectMenu then SelectRoute
    else if c.commandID[1] == '1' && c.behavior == BackToHome then HomeRoute
    else Mismatch
  }

  /**
   * vndbSearchCharacterWithSelectMenuCIDV2 after its acknowledgment: the loading edit, the
   * character by the selected id from the store or from vndb (`fetch`), and its page. No
   * session is created: the back button carries the list's own handle.
   */
  function SelectSpec(st: CharacterStores, c: CIDV2, rank: string -> int, caller: Shared.Caller,
                      allowList: set<string>, fetch: string -> Result<Character, Err>): CharacterStep {
    if c.behavior != SelectMenu then CharacterStep(st, [Report(BehaviorIdError, EditComplex)])
    else
      var key := c.value;
      if key in st.characters then
        CharacterStep(st, [Loading, Send(EditComplex, Detail(DetailView(rank, caller, allowList, st.characters[key], c.cacheID)))])
      else
        match fetch(key)
        case Failure(e) => CharacterStep(st, [Loading, FetchKey(key), Report(e, EditComplex)])
        case Success(r) =>
          CharacterStep(st.(characters := st.characters[key := r]),
                        [Loading, FetchKey(key), Send(EditComplex, Detail(DetailView(rank, caller, allowList, r, c.cacheID)))])
  }

  /**
   * bangumiSearchCharacter: the content key of the keyword, the store or a fuzzy search
   * (`search`), and an immediate reply; there is no deferred acknowledgment before the search.
   */
  function BangumiSpec(st: CharacterStores, keyword: Result<seq<Base64Url.byte>, Err>, caller: Shared.Caller,
                       allowList: set<string>, search: Result<BangumiCharacter, Err>): CharacterStep {
    match keyword
    case Failure(e) => CharacterStep(st, [Report(e, Respond)])
    case Success(kw) =>
      var key := Base64Url.ContentKey(kw);
      if key in st.bangumi then
        CharacterStep(st, [Send(Respond, Bangumi(BangumiView(caller, allowList, st.bangumi[key])))])
      else
        match search
        case Failure(e) => CharacterStep(st, [Search, Report(e, Respond)])
        case Success(r) =>
          CharacterStep(st.(bangumi := st.bangumi[key := r]), [Search, Send(Respond, Bangumi(BangumiView(caller, allowList, r)))])
  }

  /** The list search through navigator.SearchList over the vndb list store. */
  function VndbSearchSpec(st: CharacterStores, keyword: Result<seq<Base64Url.byte>, Err>, handle: string,
                          search: Result<seq<Character>, Err>, rank: string -> int): CharacterStep {
    var s := Navigator.SearchListSpec(ListStores(st), keyword, handle, search, ListBuilder(rank));
    CharacterStep(st.(lists := s.stores.results, sessions := s.stores.sessions), s.actions)
  }

  /** The inputs a character interaction depends on besides the stores. */
  datatype Request = Request(
    cid: Option<CIDV2>, optDB: Result<string, Err>, keyword: Result<seq<Base64Url.byte>, Err>, handle: string,
    caller: Shared.Caller, allowList: set<string>)

  /** What the external clients answer: the vndb list search, a vndb character by id, Bangumi. */
  datatype Clients = Clients(search: Result<seq<Character>, Err>, fetch: string -> Result<Character, Err>,
                             bangumi: Result<BangumiCharacter, Err>)

  /** SearchCharacterV2. */
  function SearchCharacterSpec(st: CharacterStores, rq: Request, cl: Clients, rank: string -> int): CharacterStep {
    match rq.cid
    case None => SlashSpec(st, rq, cl, rank)
    case Some(c) => ComponentSpec(st, c, rq, cl, rank)
  }

  /** The slash command: the database option picks Bangumi or the vndb search. */
  function SlashSpec(st: CharacterStores, rq: Request, cl: Clients, rank: string -> int): CharacterStep {
    if rq.optDB == Failure(ErrOptionTranslateFail) then CharacterStep(st, [Report(ErrOptionTranslateFail, Legacy)])
    else
      var db := if rq.optDB.Success? then rq.optDB.value else "";
      if db == "3" then BangumiSpec(st, rq.keyword, rq.caller, rq.allowList, cl.bangumi)
      else VndbSearchSpec(st, rq.keyword, rq.handle, cl.search, rank)
  }

  /** A component interaction, by its route. */
  function ComponentSpec(st: CharacterStores, c: CIDV2, rq: Request, cl: Clients, rank: string -> int): CharacterStep {
    match RouteOf(c)
    case ShortCommand => CharacterStep(st, [Crash])
    case PageRoute =>
      (match ToPage(c)
       case Failure(e) => CharacterStep(st, [Report(e, EditComplex)])
       case Success(p) => CharacterStep(st, Navigator.ChangePageSpec(ListStores(st), p, ListBuilder(rank)).actions))
    case SelectRoute =>
      var s := SelectSpec(st, c, rank, rq.caller, rq.allowList, cl.fetch);
      CharacterStep(s.stores, [DeferredUpdate] + s.actions)
    case HomeRoute => CharacterStep(st, Navigator.BackToHomeSpec(ListStores(st), c, ListBuilder(rank)).actions)
    case Mismatch => CharacterStep(st, [Report(ErrCIDBehaviorMismatch, EditComplex)])
  }

  method SelectCharacter(characters: CacheStore<Character>, log: Transcript<CharacterView>, c: CIDV2,
                         rank: string -> int, caller: Shared.Caller, allowList: set<string>,
                         fetch: string -> Result<Character, Err>, ghost st: CharacterStores)
    requires st.characters == characters.entries
    modifies characters, log
    ensures var s := SelectSpec(st, c, rank, caller, allowList, fetch);
      characters.entries == s.stores.characters && log.actions == old(log.actions) + s.actions
  {
    if c.behavior != SelectMenu {
      log.Emit(Report(BehaviorIdError, EditComplex));
      return;
    }
    log.Emit(Loading);
    var res: Character;
    var cached := characters.Lookup(c.value);
    if cached.Success? {
      res := cached.value;
    } else {
      log.Emit(FetchKey(c.value));
      var fetched := fetch(c.value);
      if fetched.Failure? {
        log.Emit(Report(fetched.error, EditComplex));
        return;
      }
      res := fetched.value;
      characters.Set(c.value, res);
    }
    var d := BuildDetail(rank, caller, allowList, res, c.cacheID);
    log.Emit(Send(EditComplex, Detail(d)));
  }

  method SearchBangumi(bangumi: CacheStore<BangumiCharacter>, log: Transcript<CharacterView>,
                       keyword: Result<seq<Base64Url.byte>, Err>, caller: Shared.Caller, allowList: set<string>,
                       search: Result<BangumiCharacter, Err>, ghost st: CharacterStores)
    requires st.bangumi == bangumi.entries
    modifies bangumi, log
    ensures var s := BangumiSpec(st, keyword, caller, allowList, search);
      bangumi.entries == s.stores.bangumi && log.actions == old(log.actions) + s.actions
  {
    if keyword.Failure? {
      log.Emit(Report(keyword.error, Respond));
      return;
    }
    var key := Base64Url.ContentKey(keyword.value);
    var res: BangumiCharacter;
    var cached := bangumi.Lookup(key);
    if cached.Success? {
      res := cached.value;
    } else {
      log.Emit(Search);
      if search.Failure? {
        log.Emit(Report(search.error, Respond));
        return;
      }
      res := search.value;
      bangumi.Set(key, res);
    }
    log.Emit(Send(Respond, Bangumi(BangumiView(caller, allowList, res))));
  }

  method SlashCharacter(index: SessionIndex, lists: CacheStore<seq<Character>>, characters: CacheStore<Character>,
                        bangumi: CacheStore<BangumiCharacter>, log: Transcript<CharacterView>,
                        rq: Request, cl: Clients, rank: string -> int)
    modifies index, lists, bangumi, log
    ensures var s := SlashSpec(CharacterStores(old(lists.entries), characters.entries,
                                               old(bangumi.entries), old(index.entries)), rq, cl, rank);
      && CharacterStores(lists.entries, characters.entries, bangumi.entries, index.entries) == s.stores
      && log.actions == old(log.actions) + s.actions
  {
    ghost var st := CharacterStores(lists.entries, characters.entries, bangumi.entries, index.entries);
    if rq.optDB.Failure? && rq.optDB.error == ErrOptionTranslateFail {
      log.Emit(Report(ErrOptionTranslateFail, Legacy));
      return;
    }
    var db := if rq.optDB.Success? then rq.optDB.value else "";
    if db == "3" {
      SearchBangumi(bangumi, log, rq.keyword, rq.caller, rq.allowList, cl.bangumi, st);
    } else {
      Navigator.SearchList(index, lists, log, rq.keyword, rq.handle, cl.search, ListBuilder(rank));
    }
  }

  method HandleComponent(index: SessionIndex, lists: CacheStore<seq<Character>>, characters: CacheStore<Character>,
                         bangumi: CacheStore<BangumiCharacter>, log: Transcript<CharacterView>,
                         c: CIDV2, rq: Request, cl: Clients, rank: string -> int)
    modifies characters, log
    ensures var s := ComponentSpec(CharacterStores(lists.entries, old(characters.entries),
                                                   bangumi.entries, index.entries), c, rq, cl, rank);
      && CharacterStores(lists.entries, characters.entries, bangumi.entries, index.entries) == s.stores
      && log.actions == old(log.actions) + s.actions
  {
    ghost var st := CharacterStores(lists.entries, characters.entries, bangumi.entries, index.entries);
    match RouteOf(c)
    case ShortCommand =>
      log.Emit(Crash);
    case PageRoute =>
      var p := ToPage(c);
      if p.Failure? {
        log.Emit(Report(p.error, EditComplex));
        return;
      }
      Navigator.ChangePage(index, lists, log, p.value, ListBuilder(rank));
    case SelectRoute =>
      log.Emit(DeferredUpdate);
      SelectCharacter(characters, log, c, rank, rq.caller, rq.allowList, cl.fetch, st);
    case HomeRoute =>
      Navigator.BackToHome(index, lists, log, c, ListBuilder(rank));
    case Mismatch =>
      log.Emit(Report(ErrCIDBehaviorMismatch, EditComplex));
  }

  method SearchCharacterV2(index: SessionIndex, lists: CacheStore<seq<Character>>, characters: CacheStore<Character>,
                           bangumi: CacheStore<BangumiCharacter>, log: Transcript<CharacterView>,
                           rq: Request, cl: Clients, rank: string -> int)
    modifies index, lists, characters, bangumi, log
    ensures var s := SearchCharacterSpec(CharacterStores(old(lists.entries), old(characters.entries),
                                                         old(bangumi.entries), old(index.entries)), rq, cl, rank);
      && CharacterStores(lists.entries, characters.entries, bangumi.entries, index.entries) == s.stores
      && log.actions == old(log.actions) + s.actions
  {
    if rq.cid.None? {
      SlashCharacter(index, lists, characters, bangumi, log, rq, cl, rank);
    } else {
      HandleComponent(index, lists, characters, bangumi, log, rq.cid.value, rq, cl, rank);
    }
  }

  // ---- The list page ----

  /**
   * Every character found is on the page its position says: character i is row and menu entry
   * i % 10 of page i / 10 + 1, numbered i + 1, and that page is within the pager's count.
   */
  lemma ListShowsEveryCharacter(rank: string -> int, res: seq<Character>, i: nat, cacheID: string)
    requires i < |res|
    ensures var page := i / PerPage + 1;
      var o := ListComponents(rank, res, page, cacheID);
      && o.Built? && 1 <= page <= o.out.list.pager.totalPages
      && i % PerPage < |o.out.list.rows| && |o.out.list.rows| == |o.out.list.menu.items|
      && o.out.list.rows[i % PerPage] == ListRow(rank, i + 1, res[i])
      && o.out.list.menu.items[i % PerPage] == MenuItem(ListName(res[i]), res[i].id)
  {
    Paging.ItemPlacement(res, PerPage, i);
    Paging.PageWithin(|res|, PerPage, i);
  }

  /**
   * Choosing entry k of a list page opens that character: the token goes to the selection flow
   * with the id of the character on row k and the list's own session handle.
   */
  lemma ChoiceNamesCharacter(rank: string -> int, res: seq<Character>, page: int, cacheID: string, k: nat)
    requires ListComponents(rank, res, page, cacheID).Built?
    requires k < |ListComponents(rank, res, page, cacheID).out.list.menu.items|
    ensures var o := ListComponents(rank, res, page, cacheID).out.list;
      var c := MenuChoice(o.menu, k);
      && 0 <= Paging.Start(page, PerPage) + k < |res|
      && c.value == res[Paging.Start(page, PerPage) + k].id
      && o.rows[k].number == Paging.ItemNumber(page, PerPage, k)
      && c.cacheID == cacheID
      && RouteOf(c) == SelectRoute
  {
  }

  /**
   * After the acknowledgment and the loading edit, a chosen character that is not stored is
   * fetched by exactly its id; a stored one is shown without a fetch.
   */
  lemma ChoiceFetchesCharacter(st: CharacterStores, rq: Request, cl: Clients, rank: string -> int,
                               res: seq<Character>, page: int, k: nat)
    requires ListComponents(rank, res, page, rq.handle).Built?
    requires k < |ListComponents(rank, res, page, rq.handle).out.list.menu.items|
    requires rq.cid == Some(MenuChoice(ListComponents(rank, res, page, rq.handle).out.list.menu, k))
    ensures var id := res[Paging.Start(page, PerPage) + k].id;
      var s := SearchCharacterSpec(st, rq, cl, rank);
      && |s.actions| >= 3 && s.actions[..2] == [DeferredUpdate, Loading]
      && (id !in st.characters ==> s.actions[2] == FetchKey(id))
      && (id in st.characters ==> FetchKey(id) !in s.actions && s.stores == st)
  {
    ChoiceNamesCharacter(rank, res, page, rq.handle, k);
  }

  // ---- Appearances ----

  /**
   * The two appearances of a list row are the best by role priority: the appearances split
   * into the shown ones and the rest, every shown one ranks no worse than every other, and each
   * shown one is given by its main title and role.
   */
  lemma VnPartsBest(rank: string -> int, vns: seq<CharacterVn>) returns (shown: seq<CharacterVn>, rest: seq<CharacterVn>)
    ensures multiset(shown) + multiset(rest) == multiset(vns)
    ensures |shown| == Paging.Min(2, |vns|) && |VnParts(rank, vns)| == |shown|
    ensures forall i :: 0 <= i < |shown| ==> VnParts(rank, vns)[i] == PartOf(shown[i])
    ensures forall i, j :: 0 <= i < |shown| && 0 <= j < |rest| ==> rank(shown[i].role) <= rank(rest[j].role)
    ensures forall i, j :: 0 <= i < j < |shown| ==> rank(shown[i].role) <= rank(shown[j].role)
  {
    var sorted := SortedVns(rank, vns);
    var n := Paging.Min(2, |sorted|);
    shown, rest := sorted[..n], sorted[n..];
    Sorting.SortedSplit(sorted, RankOrder(rank), n);
    forall i | 0 <= i < |shown|
      ensures VnParts(rank, vns)[i] == PartOf(shown[i])
    {
      assert shown[i] == sorted[i];
    }
    forall i, j | 0 <= i < |shown| && 0 <= j < |rest|
      ensures rank(shown[i].role) <= rank(rest[j].role)
    {
      assert RankOrder(rank)(shown[i], rest[j]);
    }
    forall i, j | 0 <= i < j < |shown|
      ensures rank(shown[i].role) <= rank(shown[j].role)
    {
      assert RankOrder(rank)(shown[i], shown[j]);
    }
  }

  lemma LinesOfAppend(a: seq<CharacterVn>, b: seq<CharacterVn>)
    ensures LinesOf(a + b) == LinesOf(a) + LinesOf(b)
  {
  }

  /** Taking one appearance out takes exactly its line out. */
  lemma LinesOfRemove(b: seq<CharacterVn>, j: nat)
    requires j < |b|
    ensures multiset(LinesOf(b)) == multiset(LinesOf(b[..j] + b[j + 1..])) + multiset{VnLineOf(b[j])}
  {
    var pre, post := b[..j], b[j + 1..];
    assert b == pre + [b[j]] + post;
    LinesOfAppend(pre + [b[j]], post);
    LinesOfAppend(pre, [b[j]]);
    LinesOfAppend(pre, post);
    assert LinesOf([b[j]]) == [VnLineOf(b[j])];
  }

  /** Reordering the appearances reorders their lines and loses none. */
  lemma {:induction false} LinesOfPermutation(a: seq<CharacterVn>, b: seq<CharacterVn>)
    requires multiset(a) == multiset(b)
    ensures multiset(LinesOf(a)) == multiset(LinesOf(b))
    decreases |a|
  {
    if a == [] {
      assert |b| == |multiset(b)| == 0;
    } else {
      var x := a[|a| - 1];
      var a' := a[..|a| - 1];
      assert a == a' + [x];
      var j := Sorting.PermutationStep(a, b);
      LinesOfPermutation(a', b[..j] + b[j + 1..]);
      LinesOfRemove(b, j);
      LinesOfAppend(a', [x]);
      assert LinesOf([x]) == [VnLineOf(x)];
    }
  }

  /**
   * The "appears in" lines of the detail page: the single "none" line when there is no
   * appearance, otherwise exactly one line per appearance (hidden exactly when it is a spoiler),
   * in role priority order.
   */
  lemma VnLinesEveryAppearance(rank: string -> int, vns: seq<CharacterVn>)
    ensures |vns| == 0 ==> VnLines(rank, vns) == [Unlisted]
    ensures |vns| > 0 ==> (|VnLines(rank, vns)| == |vns| && multiset(VnLines(rank, vns)) == multiset(LinesOf(vns)))
    ensures |vns| > 0 ==> forall i, j :: 0 <= i < j < |vns| ==>
      rank(VnLines(rank, vns)[i].role) <= rank(VnLines(rank, vns)[j].role)
  {
    if |vns| > 0 {
      var sorted := SortedVns(rank, vns);
      LinesOfPermutation(sorted, vns);
      forall i, j | 0 <= i < j < |vns|
        ensures rank(VnLines(rank, vns)[i].role) <= rank(VnLines(rank, vns)[j].role)
      {
        assert RankOrder(rank)(sorted[i], sorted[j]);
      }
    }
  }

  /** A line is hidden behind a spoiler mark exactly when its appearance is a spoiler. */
  lemma VnLineHidden(vn: CharacterVn)
    ensures VnLineOf(vn).hidden <==> vn.spoiler != 0
    ensures VnLineOf(vn).title == MainTitle(vn.title, vn.titles) && VnLineOf(vn).role == vn.role
  {
  }

  // ---- The detail page ----

  /** No decimal rendering of a number begins like the "unrecorded" text. */
  lemma ItoaNotUnrecorded(n: int, rest: string)
    ensures GoText.Itoa(n) + rest != Unrecorded
  {
    var t := GoText.Itoa(n) + rest;
    assert t[0] == GoText.Itoa(n)[0];
    assert Unrecorded[0] == '未';
  }

  /** A measurement is "unrecorded" exactly when vndb gives 0; otherwise its number reads back. */
  lemma MeasureText(n: int, unit: string)
    requires GoText.IsInt64(n)
    ensures Measure(n, unit) == Unrecorded <==> n == 0
    ensures n != 0 ==> var t := Measure(n, unit);
      |t| >= |unit| && t[|t| - |unit|..] == unit && GoText.Atoi(t[..|t| - |unit|]) == Success(n)
  {
    if n != 0 {
      ItoaNotUnrecorded(n, unit);
      var t := GoText.Itoa(n) + unit;
      assert t[..|t| - |unit|] == GoText.Itoa(n);
      GoText.AtoiItoa(n);
    }
  }

  /**
   * The fields of the detail page that fall back to a fixed text do so exactly when vndb has no
   * value for them, and the back button leads to the list session it was opened from.
   */
  lemma DetailFallbacks(rank: string -> int, caller: Shared.Caller, allowList: set<string>, res: Character, listID: string)
    ensures var d := DetailView(rank, caller, allowList, res, listID);
      && (d.height == Unrecorded <==> res.height == 0)
      && (d.weight == Unrecorded <==> res.weight == 0)
      && (d.bwh == Unrecorded <==> res.bust == 0 || res.waist == 0 || res.hips == 0)
      && (d.age == Unrecorded <==> res.age.None?)
      && (d.birthday == Unrecorded <==> res.birthday == (0, 0))
      && (d.bloodType == Unrecorded <==> res.bloodType == "" || res.bloodType == Unrecorded)
      && (d.description == Undescribed <==> res.description == "")
      && (d.title == res.name <==> res.original == "")
      && (|res.aliases| == 0 ==> d.aliases == Unrecorded)
      && d.back == BackButton(ListCommand, listID)
  {
    var d := DetailView(rank, caller, allowList, res, listID);
    if res.height != 0 { ItoaNotUnrecorded(res.height, "cm"); }
    if res.weight != 0 { ItoaNotUnrecorded(res.weight, "kg"); }
    if res.bust != 0 && res.waist != 0 && res.hips != 0 {
      ItoaNotUnrecorded(res.bust, "/" + GoText.Itoa(res.waist) + "/" + GoText.Itoa(res.hips));
      assert d.bwh == GoText.Itoa(res.bust) + ("/" + GoText.Itoa(res.waist) + "/" + GoText.Itoa(res.hips));
    }
    if res.age.Some? { ItoaNotUnrecorded(res.age.value, ""); assert GoText.Itoa(res.age.value) + "" == d.age; }
    if res.birthday != (0, 0) {
      ItoaNotUnrecorded(res.birthday.0, "月" + GoText.Itoa(res.birthday.1) + "號");
      assert d.birthday == GoText.Itoa(res.birthday.0) + ("月" + GoText.Itoa(res.birthday.1) + "號");
    }
    if res.original != "" {
      assert |d.title| > |res.name|;
    }
  }

  /**
   * A pair of codes is "unrecorded" when both are empty, shown once when they agree, and shown
   * with the second behind a spoiler mark when they differ.
   */
  lemma DuoCases(pair: (string, string))
    ensures DuoOf(pair) == NotRecorded <==> pair == ("", "")
    ensures DuoOf(pair).Spoiled? <==> pair.0 != pair.1
    ensures DuoOf(pair).One? ==> DuoOf(pair).code == pair.0 == pair.1
    ensures DuoOf(pair).Spoiled? ==> DuoOf(pair).shown == pair.0 && DuoOf(pair).hidden == pair.1
  {
  }

  // ---- The selection flow ----

  /**
   * Selecting a character writes at most the character store, under the selected id; the list
   * store and every session are untouched.
   */
  lemma SelectKeepsSession(st: CharacterStores, c: CIDV2, rank: string -> int, caller: Shared.Caller,
                           allowList: set<string>, fetch: string -> Result<Character, Err>)
    ensures var s := SelectSpec(st, c, rank, caller, allowList, fetch);
      && s.stores.lists == st.lists && s.stores.sessions == st.sessions && s.stores.bangumi == st.bangumi
      && (forall id :: id != c.value && id in st.characters ==> id in s.stores.characters && s.stores.characters[id] == st.characters[id])
      && (forall id :: id in s.stores.characters ==> id in st.characters || id == c.value)
  {
  }

  /** A page that a selection delivers is the selected character's, as stored after the selection. */
  lemma SelectShowsChoice(st: CharacterStores, c: CIDV2, rank: string -> int, caller: Shared.Caller,
                          allowList: set<string>, fetch: string -> Result<Character, Err>)
    ensures var s := SelectSpec(st, c, rank, caller, allowList, fetch);
      s.actions[|s.actions| - 1].Send? ==>
        && c.value in s.stores.characters
        && s.actions[|s.actions| - 1] == Send(EditComplex, Detail(DetailView(rank, caller, allowList, s.stores.characters[c.value], c.cacheID)))
  {
  }

  /** A selection not in the store asks vndb once; a failed fetch changes nothing and is reported. */
  lemma SelectMiss(st: CharacterStores, c: CIDV2, rank: string -> int, caller: Shared.Caller,
                   allowList: set<string>, fetch: string -> Result<Character, Err>)
    requires c.behavior == SelectMenu && c.value !in st.characters
    ensures var s := SelectSpec(st, c, rank, caller, allowList, fetch);
      && s.actions[..2] == [Loading, FetchKey(c.value)]
      && (fetch(c.value).Failure? ==> s.stores == st && s.actions[2] == Report(fetch(c.value).error, EditComplex))
      && (fetch(c.value).Success? ==> Cache.Get(s.stores.characters, c.value) == Success(fetch(c.value).value))
  {
  }

  /**
   * The back button of a detail page, pressed, renders page 1 of the list session it names
   * under the same handle, or reports the lost session; nothing is written.
   */
  lemma BackReturnsToList(st: CharacterStores, rq: Request, cl: Clients, rank: string -> int,
                          d: CharacterDetail, v: string)
    requires d.back.commandID == ListCommand
    requires rq.cid == Some(CIDV2(d.back.commandID, BackToHome, d.back.cacheID, v))
    ensures var s := SearchCharacterSpec(st, rq, cl, rank);
      var r := Navigator.Resolve(ListStores(st), d.back.cacheID);
      && s.stores == st
      && (r.Success? ==> s.actions == [Deliver(ListComponents(rank, r.value, 1, d.back.cacheID), EditComplex, EditComplex)])
      && (r.Failure? ==> s.actions == [Report(ErrCacheLost, EditComplex)])
  {
    Navigator.BackToHomeRenders(ListStores(st), rq.cid.value, ListBuilder(rank));
  }

  /**
   * Select, then back: after a character is shown from a list, its back button brings page 1 of
   * the same list back, because the selection left the session and the list store as they were.
   */
  lemma SelectThenBack(st: CharacterStores, rq: Request, cl: Clients, rank: string -> int, v: string)
    requires rq.cid.Some? && RouteOf(rq.cid.value) == SelectRoute
    requires Navigator.Resolve(ListStores(st), rq.cid.value.cacheID).Success?
    requires SelectSpec(st, rq.cid.value, rank, rq.caller, rq.allowList, cl.fetch).actions[|SelectSpec(st, rq.cid.value, rank, rq.caller, rq.allowList, cl.fetch).actions| - 1].Send?
    ensures var s := SearchCharacterSpec(st, rq, cl, rank);
      var last := s.actions[|s.actions| - 1];
      var back := CIDV2(last.out.detail.back.commandID, BackToHome, last.out.detail.back.cacheID, v);
      var s2 := SearchCharacterSpec(s.stores, rq.(cid := Some(back)), cl, rank);
      var list := Navigator.Resolve(ListStores(st), rq.cid.value.cacheID).value;
      && last.Send? && last.out.Detail?
      && ListComponents(rank, list, 1, rq.cid.value.cacheID).Built?
      && s2.stores == s.stores
      && s2.actions == [Send(EditComplex, ListComponents(rank, list, 1, rq.cid.value.cacheID).out)]
  {
    var c := rq.cid.value;
    SelectKeepsSession(st, c, rank, rq.caller, rq.allowList, cl.fetch);
    SelectShowsChoice(st, c, rank, rq.caller, rq.allowList, cl.fetch);
    var s := SearchCharacterSpec(st, rq, cl, rank);
    var last := s.actions[|s.actions| - 1];
    var back := CIDV2(last.out.detail.back.commandID, BackToHome, last.out.detail.back.cacheID, v);
    BackReturnsToList(s.stores, rq.(cid := Some(back)), cl, rank, last.out.detail, v);
  }

  // ---- The Bangumi lookup ----

  /**
   * The Bangumi lookup answers exactly once and always on the immediate response: it never
   * sends a deferred acknowledgment, and it changes no store other than the Bangumi one.
   */
  lemma BangumiAnswersOnce(st: CharacterStores, keyword: Result<seq<Base64Url.byte>, Err>, caller: Shared.Caller,
                           allowList: set<string>, search: Result<BangumiCharacter, Err>)
    ensures var s := BangumiSpec(st, keyword, caller, allowList, search);
      && 1 <= |s.actions| <= 2
      && DeferredAck !in s.actions && DeferredUpdate !in s.actions
      && (s.actions[|s.actions| - 1].Send? || s.actions[|s.actions| - 1].Report?)
      && s.actions[|s.actions| - 1].via == Respond
      && s.stores.lists == st.lists && s.stores.characters == st.characters && s.stores.sessions == st.sessions
  {
  }

  /**
   * A stored character is answered without a search, whatever the search would give; a miss
   * searches once, and a successful search is stored under the keyword's content key.
   */
  lemma BangumiLookup(st: CharacterStores, kw: seq<Base64Url.byte>, caller: Shared.Caller, allowList: set<string>,
                      s1: Result<BangumiCharacter, Err>, s2: Result<BangumiCharacter, Err>)
    ensures var key := Base64Url.ContentKey(kw);
      var s := BangumiSpec(st, Success(kw), caller, allowList, s1);
      && (key in st.bangumi ==> Search !in s.actions && s == BangumiSpec(st, Success(kw), caller, allowList, s2))
      && (key !in st.bangumi ==> s.actions[0] == Search)
      && (key !in st.bangumi && s1.Success? ==> s.stores.bangumi == st.bangumi[key := s1.value])
      && (key !in st.bangumi && s1.Failure? ==> s.stores == st && s.actions == [Search, Report(s1.error, Respond)])
  {
  }

  /** Asking again for the same keyword after a successful search answers from the store. */
  lemma BangumiMissThenHit(st: CharacterStores, kw: seq<Base64Url.byte>, caller: Shared.Caller, allowList: set<string>,
                           r: BangumiCharacter, s2: Result<BangumiCharacter, Err>)
    requires Base64Url.ContentKey(kw) !in st.bangumi
    ensures var first := BangumiSpec(st, Success(kw), caller, allowList, Success(r));
      var second := BangumiSpec(first.stores, Success(kw), caller, allowList, s2);
      second.actions == [Send(Respond, Bangumi(BangumiView(caller, allowList, r)))] && second.stores == first.stores
  {
  }

  /** Height and weight are "unrecorded" together exactly when Bangumi gives neither. */
  lemma HeightWeightText(height: string, weight: string)
    ensures HeightWeight(height, weight) == Unrecorded <==> height == "" && weight == ""
  {
    if height != "" || weight != "" {
      assert |HeightWeight(height, weight)| >= 4;
    }
  }

  // ---- Routing ----

  /**
   * The option and token cases of SearchCharacterV2: a failed translation of the database option
   * goes to the legacy error path untouched, a token whose command id has fewer than two
   * characters panics, and a token never changes the list store, the sessions or the Bangumi
   * store.
   */
  lemma Routing(st: CharacterStores, rq: Request, cl: Clients, rank: string -> int)
    ensures rq.cid.None? && rq.optDB == Failure(ErrOptionTranslateFail) ==>
      SearchCharacterSpec(st, rq, cl, rank) == CharacterStep(st, [Report(ErrOptionTranslateFail, Legacy)])
    ensures rq.cid.None? && rq.optDB.Failure? && rq.optDB.error != ErrOptionTranslateFail ==>
      SearchCharacterSpec(st, rq, cl, rank) == VndbSearchSpec(st, rq.keyword, rq.handle, cl.search, rank)
    ensures rq.cid.Some? && |rq.cid.value.commandID| < 2 ==>
      SearchCharacterSpec(st, rq, cl, rank) == CharacterStep(st, [Crash])
    ensures rq.cid.Some? ==> var s := SearchCharacterSpec(st, rq, cl, rank);
      s.stores.lists == st.lists && s.stores.sessions == st.sessions && s.stores.bangumi == st.bangumi
  {
    if rq.cid.Some? && RouteOf(rq.cid.value) == SelectRoute {
      SelectKeepsSession(st, rq.cid.value, rank, rq.caller, rq.allowList, cl.fetch);
    }
  }
}
