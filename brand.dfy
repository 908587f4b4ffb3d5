/**
 * The brand search (handlers/searchcmd/search_brand.go): a vndb producer's games, seven to a
 * page, whose menu opens a game page with its staff, characters, related games and cover; and
 * an erogs brand's games, seven to a page, marked with what the user has played or wishes for,
 * whose menu hands over to the erogs game flow of another handler.
 *
 * Neither builder floors the page count: an empty list has zero pages. The names vndb.Role
 * gives role codes are not part of this model: the pages carry the codes.
 */
module SearchBrand {
  import opened Wrappers
  import opened Errors
  import opened Cid
  import opened Transport
  import opened Cache
  import opened Views
  import Paging
  import Sorting
  import Navigator
  import Base64Url
  import GoText
  import Shared
  import ErogsIds

  const PerPage: nat := 7
  const VndbCommand := "B1"
  const ErogsCommand := "B2"

  /** The flow of another handler that an erogs game choice is passed to. */
  const ErogsGameFlow := "erogsSearchGameWithSelectMenuCIDV2"

  // ---- The vndb list (buildSearchBrandComponents) ----

  /** One game of a vndb producer search. */
  datatype ProducerVn = ProducerVn(id: string, title: string, alttitle: string, lengthMinutes: int,
                                   rating: real, votecount: int, thumbnail: string)

  /** vndb.ProducerSearchResponse: the names of the producers found, and their games. */
  datatype ProducerResponse = ProducerResponse(producers: seq<string>, vns: seq<ProducerVn>)

  datatype VndbRow = VndbRow(number: int, title: string, rating: real, hours: int, votecount: int, thumb: Thumb)

  datatype VndbListPage = VndbListPage(producer: string, total: nat, rows: seq<VndbRow>, menu: Menu, pager: Pager)

  /** The alternative title when it is not blank, otherwise the title. */
  function DisplayTitle(title: string, alttitle: string): string {
    if GoText.TrimSpace(alttitle) != "" then alttitle else title
  }

  function VndbRowOf(number: int, vn: ProducerVn): VndbRow {
    VndbRow(number, DisplayTitle(vn.title, vn.alttitle), vn.rating, GoText.Quo(vn.lengthMinutes, 60), vn.votecount,
            ThumbFromUrl(vn.thumbnail))
  }

  function VndbItem(vn: ProducerVn): MenuItem {
    MenuItem(DisplayTitle(vn.title, vn.alttitle), vn.id)
  }

  // ---- The erogs list (buildSearchBrandErogsComponents) ----

  /** One game of erogs.Brand's game list. */
  datatype ErogsGame = ErogsGame(id: int, gameName: string, median: int, stdev: int, count2: int,
                                 sellDay: string, model: string, dmm: string, category: string)

  /** erogs.Brand. */
  datatype ErogsBrand = ErogsBrand(brandName: string, lost: bool, url: string, twitter: string, games: seq<ErogsGame>)

  datatype BrandLink = Official(url: string) | TwitterLink(handle: string)

  /** A game row; `marks` is the played and wished prefix, in that order. */
  datatype ErogsRow = ErogsRow(marks: string, number: int, gameName: string, median: int, stdev: int,
                               count2: int, sellDay: string, model: string, thumb: Thumb)

  datatype ErogsListPage = ErogsListPage(title: string, links: seq<BrandLink>, total: nat, rows: seq<ErogsRow>,
                                         menu: Menu, pager: Pager)

  const PlayedMark := "✅"
  const WishMark := "❤️"
  const DissolvedMark := " (解散)"

  /** The prefix of a row: the played mark, then the wish mark, each only when it applies. */
  function Marks(id: int, played: set<int>, wished: set<int>): string {
    (if id in played then PlayedMark else "") + (if id in wished then WishMark else "")
  }

  function BrandTitle(b: ErogsBrand): string {
    if b.lost then b.brandName + DissolvedMark else b.brandName
  }

  /** The official site, then the Twitter account, each only when it is not blank. */
  function BrandLinks(b: ErogsBrand): seq<BrandLink> {
    (if GoText.TrimSpace(b.url) != "" then [Official(b.url)] else [])
    + (if GoText.TrimSpace(b.twitter) != "" then [TwitterLink(b.twitter)] else [])
  }

  function ErogsRowOf(number: int, g: ErogsGame, played: set<int>, wished: set<int>): ErogsRow {
    ErogsRow(Marks(g.id, played, wished), number, g.gameName, g.median, g.stdev, g.count2, g.sellDay, g.model,
             ThumbFromDmm(g.dmm))
  }

  /** A menu entry: the name with its category, and the "e"-prefixed erogs id. */
  function ErogsItem(g: ErogsGame): MenuItem {
    MenuItem(g.gameName + " (" + g.category + ")", ErogsIds.MenuId(g.id))
  }

  // ---- The game page (vndbSearchBrandWithSelectMenuCIDV2) ----

  datatype Developer = Developer(name: string, original: string)
  datatype StaffAlias = StaffAlias(name: string, isMain: bool)
  datatype Staff = Staff(name: string, original: string, aliases: seq<StaffAlias>, role: string)
  datatype VnRef = VnRef(id: string, role: string)

  /** A voiced character and the VNs it appears in. */
  datatype VaCharacter = VaCharacter(id: string, name: string, original: string, vns: seq<VnRef>)

  datatype RelationTitle = RelationTitle(title: string, main: bool)
  datatype Relation = Relation(id: string, titles: seq<RelationTitle>)

  /** The cover and vndb's sexual and violence ratings of it. */
  datatype Cover = Cover(url: string, sexual: real, violence: real)

  datatype VnDetail = VnDetail(
    id: string, title: string, alttitle: string, developers: seq<Developer>, staff: seq<Staff>,
    va: seq<VaCharacter>, relations: seq<Relation>, image: Cover,
    average: real, rating: real, votecount: int, lengthMinutes: int, lengthVotes: int)

  /** The answer of vndb.GetVNByFuzzy: the page shows its first result. */
  datatype VnResponse = VnResponse(results: seq<VnDetail>)

  /** The scenario, art and songs credits as the staff loop accumulates them. */
  datatype Credits = Credits(scenario: string, art: string, songs: string)

  /** utils.CharacterData: a character's name and role code. */
  datatype CharacterData = CharacterData(name: string, role: string)

  /** A text section is present only when its content is not blank. */
  datatype GameDetail = GameDetail(
    title: string, brand: Option<string>, scenario: Option<string>, art: Option<string>, songs: Option<string>,
    average: real, rating: real, votecount: int, hours: int, lengthVotes: int, characters: seq<CharacterData>, relations: string,
    thumb: Thumb, back: BackButton)

  datatype BrandView = VndbList(vndb: VndbListPage) | ErogsList(erogs: ErogsListPage) | Game(game: GameDetail)

  function VndbListComponents(res: ProducerResponse, page: int, cacheID: string): Outcome<BrandView> {
    if |res.producers| == 0 then Panics
    else
      match Paging.PageItems(res.vns, PerPage, page)
      case None => Panics
      case Some(paged) =>
        var start := Paging.Start(page, PerPage);
        Built(VndbList(VndbListPage(res.producers[0], |res.vns|,
          seq(|paged|, k requires 0 <= k < |paged| => VndbRowOf(start + k + 1, paged[k])),
          Menu(VndbCommand, cacheID, seq(|paged|, k requires 0 <= k < |paged| => VndbItem(paged[k]))),
          Pager(VndbCommand, page, Paging.PageCount(|res.vns|, PerPage), cacheID))))
  }

  function ErogsListComponents(res: ErogsBrand, page: int, cacheID: string, played: set<int>, wished: set<int>)
    : Outcome<BrandView>
  {
    match Paging.PageItems(res.games, PerPage, page)
    case None => Panics
    case Some(paged) =>
      var start := Paging.Start(page, PerPage);
      Built(ErogsList(ErogsListPage(BrandTitle(res), BrandLinks(res), |res.games|,
        seq(|paged|, k requires 0 <= k < |paged| => ErogsRowOf(start + k + 1, paged[k], played, wished)),
        Menu(ErogsCommand, cacheID, seq(|paged|, k requires 0 <= k < |paged| => ErogsItem(paged[k]))),
        Pager(ErogsCommand, page, Paging.PageCount(|res.games|, PerPage), cacheID))))
  }

  function VndbBuilder(): Navigator.Builder<ProducerResponse, BrandView> {
    (res: ProducerResponse, page: int, cacheID: string) => VndbListComponents(res, page, cacheID)
  }

  /** The erogs builder as the flows pass it, closed over the user's played and wished games. */
  function ErogsBuilder(played: set<int>, wished: set<int>): Navigator.Builder<ErogsBrand, BrandView> {
    (res: ErogsBrand, page: int, cacheID: string) => ErogsListComponents(res, page, cacheID, played, wished)
  }

  method BuildVndbRows(paged: seq<ProducerVn>, start: int) returns (rows: seq<VndbRow>, items: seq<MenuItem>)
    ensures rows == seq(|paged|, k requires 0 <= k < |paged| => VndbRowOf(start + k + 1, paged[k]))
    ensures items == seq(|paged|, k requires 0 <= k < |paged| => VndbItem(paged[k]))
  {
    rows, items := [], [];
    var idx := 0;
    while idx < |paged|
      invariant 0 <= idx <= |paged|
      invariant rows == seq(idx, k requires 0 <= k < idx => VndbRowOf(start + k + 1, paged[k]))
      invariant items == seq(idx, k requires 0 <= k < idx => VndbItem(paged[k]))
    {
      var item := paged[idx];
      var title := item.title;
      if GoText.TrimSpace(item.alttitle) != "" {
        title := item.alttitle;
      }
      var hours := GoText.Quo(item.lengthMinutes, 60);
      var thumb := if GoText.TrimSpace(item.thumbnail) == "" then Placeholder else Url(item.thumbnail);
      rows := rows + [VndbRow(start + idx + 1, title, item.rating, hours, item.votecount, thumb)];
      items := items + [MenuItem(title, item.id)];
      idx := idx + 1;
    }
  }

  method BuildVndbList(res: ProducerResponse, page: int, cacheID: string) returns (o: Outcome<BrandView>)
    ensures o == VndbListComponents(res, page, cacheID)
  {
    if |res.producers| == 0 {
      return Panics;
    }
    var producerName := res.producers[0];
    var totalItems := |res.vns|;
    var totalPages := Paging.TotalPages(totalItems, PerPage);
    var start, window := Paging.Window(res.vns, PerPage, page);
    if window.None? {
      return Panics;
    }
    var rows, items := BuildVndbRows(window.value, start);
    return Built(VndbList(VndbListPage(producerName, totalItems, rows, Menu(VndbCommand, cacheID, items),
                                       Pager(VndbCommand, page, totalPages, cacheID))));
  }

  method BuildErogsRows(paged: seq<ErogsGame>, start: int, played: set<int>, wished: set<int>)
    returns (rows: seq<ErogsRow>, items: seq<MenuItem>)
    ensures rows == seq(|paged|, k requires 0 <= k < |paged| => ErogsRowOf(start + k + 1, paged[k], played, wished))
    ensures items == seq(|paged|, k requires 0 <= k < |paged| => ErogsItem(paged[k]))
  {
    rows, items := [], [];
    var idx := 0;
    while idx < |paged|
      invariant 0 <= idx <= |paged|
      invariant rows == seq(idx, k requires 0 <= k < idx => ErogsRowOf(start + k + 1, paged[k], played, wished))
      invariant items == seq(idx, k requires 0 <= k < idx => ErogsItem(paged[k]))
    {
      var item := paged[idx];
      var prefix := "";
      if item.id in played {
        prefix := prefix + PlayedMark;
      }
      if item.id in wished {
        prefix := prefix + WishMark;
      }
      assert prefix == Marks(item.id, played, wished);
      var thumb := ThumbFromDmm(item.dmm);
      rows := rows + [ErogsRow(prefix, start + idx + 1, item.gameName, item.median, item.stdev, item.count2,
                               item.sellDay, item.model, thumb)];
      items := items + [MenuItem(item.gameName + " (" + item.category + ")", "e" + GoText.Itoa(item.id))];
      idx := idx + 1;
    }
  }

  method BuildErogsList(res: ErogsBrand, page: int, cacheID: string, played: set<int>, wished: set<int>)
    returns (o: Outcome<BrandView>)
    ensures o == ErogsListComponents(res, page, cacheID, played, wished)
  {
    var totalItems := |res.games|;
    var totalPages := Paging.TotalPages(totalItems, PerPage);
    var brandTitle := res.brandName;
    if res.lost {
      brandTitle := brandTitle + DissolvedMark;
    }
    var links: seq<BrandLink> := [];
    if GoText.TrimSpace(res.url) != "" {
      links := links + [Official(res.url)];
    }
    if GoText.TrimSpace(res.twitter) != "" {
      links := links + [TwitterLink(res.twitter)];
    }
    assert links == BrandLinks(res);
    var start, window := Paging.Window(res.games, PerPage, page);
    if window.None? {
      return Panics;
    }
    var rows, items := BuildErogsRows(window.value, start, played, wished);
    return Built(ErogsList(ErogsListPage(brandTitle, links, totalItems, rows, Menu(ErogsCommand, cacheID, items),
                                         Pager(ErogsCommand, page, totalPages, cacheID))));
  }

  // ---- The user's played and wished games (getErogsUserPlayWishMaps) ----

  /** A database read: no error, gorm's ErrRecordNotFound (tolerated), or another error. */
  datatype DbError = NoError | RecordNotFound | QueryFailed

  /** The erogs ids a query returned, and its error. */
  datatype Query = Query(ids: seq<int>, err: DbError)

  function IdSet(ids: seq<int>): set<int> {
    set i | i in ids
  }

  /**
   * The played and wished sets: both empty for a blank or unknown user or a failed played
   * query; a failed wish query keeps the played set and leaves the wished set empty.
   */
  function PlayWish(userID: string, users: set<string>, played: Query, wish: Query): (set<int>, set<int>) {
    if GoText.TrimSpace(userID) == "" || userID !in users then ({}, {})
    else if played.err == QueryFailed then ({}, {})
    else if wish.err == QueryFailed then (IdSet(played.ids), {})
    else (IdSet(played.ids), IdSet(wish.ids))
  }

  method CollectIds(ids: seq<int>) returns (m: set<int>)
    ensures m == IdSet(ids)
  {
    m := {};
    var i := 0;
    while i < |ids|
      invariant 0 <= i <= |ids|
      invariant m == IdSet(ids[..i])
    {
      assert ids[..i + 1] == ids[..i] + [ids[i]];
      m := m + {ids[i]};
      i := i + 1;
    }
    assert ids[..i] == ids;
  }

  method PlayWishMaps(userID: string, users: set<string>, played: Query, wish: Query)
    returns (hasPlayed: set<int>, inWish: set<int>)
    ensures (hasPlayed, inWish) == PlayWish(userID, users, played, wish)
  {
    hasPlayed, inWish := {}, {};
    if GoText.TrimSpace(userID) == "" {
      return;
    }
    if userID !in users {
      return;
    }
    if played.err == QueryFailed {
      return;
    }
    hasPlayed := CollectIds(played.ids);
    if wish.err == QueryFailed {
      return;
    }
    inWish := CollectIds(wish.ids);
  }

  // ---- Staff credits ----

  /** The name of the last main alias, or `dflt` when none is main (the loop does not stop at one). */
  function MainAliasName(aliases: seq<StaffAlias>, dflt: string): string
    decreases |aliases|
  {
    if aliases == [] then dflt
    else if aliases[|aliases| - 1].isMain then aliases[|aliases| - 1].name
    else MainAliasName(aliases[..|aliases| - 1], dflt)
  }

  /** With no main alias the credited name is the default. */
  lemma {:induction false} MainAliasNameDefault(aliases: seq<StaffAlias>, dflt: string)
    requires forall i :: 0 <= i < |aliases| ==> !aliases[i].isMain
    ensures MainAliasName(aliases, dflt) == dflt
    decreases |aliases|
  {
    if aliases != [] {
      var init := aliases[..|aliases| - 1];
      assert forall i :: 0 <= i < |init| ==> init[i] == aliases[i];
      MainAliasNameDefault(init, dflt);
    }
  }

  /** The credited name is that of the last main alias. */
  lemma {:induction false} MainAliasNameLastMain(aliases: seq<StaffAlias>, dflt: string, i: nat)
    requires i < |aliases| && aliases[i].isMain
    requires forall j :: i < j < |aliases| ==> !aliases[j].isMain
    ensures MainAliasName(aliases, dflt) == aliases[i].name
    decreases |aliases|
  {
    if i < |aliases| - 1 {
      var init := aliases[..|aliases| - 1];
      assert init[i] == aliases[i];
      assert forall j :: i < j < |init| ==> init[j] == aliases[j];
      MainAliasNameLastMain(init, dflt, i);
    }
  }


  /** A staff member's credited name: a main alias, else the original name, else the name. */
  function StaffName(s: Staff): string {
    MainAliasName(s.aliases, if s.original == "" then s.name else s.original)
  }

  /** The names of the aliases that are not main, in order. */
  function OtherAliases(aliases: seq<StaffAlias>): seq<string>
    decreases |aliases|
  {
    if aliases == [] then []
    else
      var last := aliases[|aliases| - 1];
      OtherAliases(aliases[..|aliases| - 1]) + (if last.isMain then [] else [last.name])
  }

  /**
   * The other aliases are empty exactly when every alias is main, hold every non-main name, and
   * hold nothing else.
   */
  lemma {:induction false} OtherAliasesContents(aliases: seq<StaffAlias>)
    ensures OtherAliases(aliases) == [] <==> forall i :: 0 <= i < |aliases| ==> aliases[i].isMain
    ensures forall i :: 0 <= i < |aliases| && !aliases[i].isMain ==> aliases[i].name in OtherAliases(aliases)
    ensures forall j :: 0 <= j < |OtherAliases(aliases)| ==>
      exists i :: 0 <= i < |aliases| && !aliases[i].isMain && aliases[i].name == OtherAliases(aliases)[j]
    decreases |aliases|
  {
    if aliases != [] {
      var init := aliases[..|aliases| - 1];
      OtherAliasesContents(init);
      assert forall i :: 0 <= i < |aliases| - 1 ==> init[i] == aliases[i];
    }
  }

  /**
   * The other aliases keep the order of the list: those of a concatenation are those of each
   * part in turn, so with the one-alias case they are the non-main names filtered in order.
   */
  lemma {:induction false} OtherAliasesAppend(a: seq<StaffAlias>, b: seq<StaffAlias>)
    ensures OtherAliases(a + b) == OtherAliases(a) + OtherAliases(b)
    decreases |b|
  {
    if b != [] {
      var init := b[..|b| - 1];
      OtherAliasesAppend(a, init);
      assert (a + b)[..|a + b| - 1] == a + init;
    } else {
      assert a + b == a;
    }
  }

  /** The other aliases in parentheses, or nothing when there are none. */
  function AliasText(others: seq<string>): string {
    if |others| == 0 then "" else "(" + GoText.Join(others, ", ") + ")"
  }

  /** The alias text of one staff member, from that member's own aliases. */
  function OwnAlias(s: Staff): string {
    AliasText(OtherAliases(s.aliases))
  }

  /** One credit line, `fmt.Sprintf("%s %s\n", staffName, tmpAlias)`: never empty. */
  function StaffLine(s: Staff, alias: string): (l: string)
    ensures |l| > 0 && l[|l| - 1] == '\n'
  {
    StaffName(s) + " " + alias + "\n"
  }

  /** Append a credit line to the block of its role; other roles are not shown. */
  function AddCredit(c: Credits, role: string, line: string): Credits {
    if role == "scenario" then c.(scenario := c.scenario + line)
    else if role == "art" then c.(art := c.art + line)
    else if role == "songs" then c.(songs := c.songs + line)
    else c
  }

  const NoCredits := Credits("", "", "")

  /**
   * The staff loop as written: `tmpAlias` is recomputed only for a member who has aliases, so a
   * member without any is credited with the alias text of the last member before who had some.
   * The second component is `tmpAlias` after the loop.
   */
  function CreditsAsWritten(staff: seq<Staff>): (Credits, string)
    decreases |staff|
  {
    if staff == [] then (NoCredits, "")
    else
      var prev := CreditsAsWritten(staff[..|staff| - 1]);
      var s := staff[|staff| - 1];
      var alias := if |s.aliases| > 0 then OwnAlias(s) else prev.1;
      (AddCredit(prev.0, s.role, StaffLine(s, alias)), alias)
  }

  /** The credit line of one staff member, under that member's own aliases. */
  function CreditLine(s: Staff): (l: string)
    ensures |l| > 0 && l[|l| - 1] == '\n'
  {
    StaffLine(s, OwnAlias(s))
  }

  /** The staff block with each member credited under that member's own aliases. */
  function CreditsOf(staff: seq<Staff>): Credits
    decreases |staff|
  {
    if staff == [] then NoCredits
    else
      var s := staff[|staff| - 1];
      AddCredit(CreditsOf(staff[..|staff| - 1]), s.role, CreditLine(s))
  }

  function Merge(a: Credits, b: Credits): Credits {
    Credits(a.scenario + b.scenario, a.art + b.art, a.songs + b.songs)
  }

  lemma MainAliasStep(aliases: seq<StaffAlias>, i: nat, dflt: string)
    requires i < |aliases|
    ensures MainAliasName(aliases[..i + 1], dflt)
            == if aliases[i].isMain then aliases[i].name else MainAliasName(aliases[..i], dflt)
  {
    assert aliases[..i + 1][..i] == aliases[..i];
  }

  lemma OtherAliasesStep(aliases: seq<StaffAlias>, i: nat)
    requires i < |aliases|
    ensures OtherAliases(aliases[..i + 1])
            == OtherAliases(aliases[..i]) + (if aliases[i].isMain then [] else [aliases[i].name])
  {
    assert aliases[..i + 1][..i] == aliases[..i];
  }

  /**
   * One pass of the staff loop: the credited name, and `tmpAlias` recomputed from the member's
   * own aliases when the member has any, else carried over from the previous member.
   */
  method StaffEntry(s: Staff, tmpAlias: string) returns (name: string, alias: string)
    ensures name == StaffName(s)
    ensures |s.aliases| > 0 ==> alias == OwnAlias(s)
    ensures |s.aliases| == 0 ==> alias == tmpAlias
  {
    name := s.original;
    if name == "" {
      name := s.name;
    }
    alias := tmpAlias;
    if |s.aliases| > 0 {
      ghost var dflt := name;
      var others: seq<string> := [];
      var i := 0;
      while i < |s.aliases|
        invariant 0 <= i <= |s.aliases|
        invariant name == MainAliasName(s.aliases[..i], dflt)
        invariant others == OtherAliases(s.aliases[..i])
      {
        MainAliasStep(s.aliases, i, dflt);
        OtherAliasesStep(s.aliases, i);
        if s.aliases[i].isMain {
          name := s.aliases[i].name;
        } else {
          others := others + [s.aliases[i].name];
        }
        i := i + 1;
      }
      assert s.aliases[..i] == s.aliases;
      alias := "(" + GoText.Join(others, ", ") + ")";
      if |others| == 0 {
        alias := "";
      }
    }
  }

  /** The staff loop, `tmpAlias` carried from one member to the next as the code does. */
  method BuildCredits(staff: seq<Staff>) returns (c: Credits)
    ensures c == CreditsAsWritten(staff).0
  {
    var scenario, art, songs := "", "", "";
    var tmpAlias := "";
    var i := 0;
    while i < |staff|
      invariant 0 <= i <= |staff|
      invariant (Credits(scenario, art, songs), tmpAlias) == CreditsAsWritten(staff[..i])
    {
      assert staff[..i + 1][..i] == staff[..i];
      var name;
      name, tmpAlias := StaffEntry(staff[i], tmpAlias);
      var line := name + " " + tmpAlias + "\n";
      if staff[i].role == "scenario" {
        scenario := scenario + line;
      } else if staff[i].role == "art" {
        art := art + line;
      } else if staff[i].role == "songs" {
        songs := songs + line;
      }
      i := i + 1;
    }
    assert staff[..i] == staff;
    c := Credits(scenario, art, songs);
  }

  // ---- Characters ----

  function DisplayName(v: VaCharacter): string {
    if v.original == "" then v.name else v.original
  }

  /** The character's role in the first of its VNs that is this VN, if any. */
  function RoleIn(vns: seq<VnRef>, vnID: string): Option<string>
    decreases |vns|
  {
    if vns == [] then None
    else if vns[0].id == vnID then Some(vns[0].role)
    else RoleIn(vns[1..], vnID)
  }

  /** characterMap after the loop over the voiced characters: a later entry of an id overwrites. */
  function CharacterMapOf(va: seq<VaCharacter>, vnID: string): map<string, CharacterData>
    decreases |va|
  {
    if va == [] then map[]
    else
      var m := CharacterMapOf(va[..|va| - 1], vnID);
      var v := va[|va| - 1];
      match RoleIn(v.vns, vnID)
      case None => m
      case Some(role) => m[v.id := CharacterData(DisplayName(v), role)]
  }

  /**
   * The ids of characterMap in the order they were first inserted. Go visits a map in an
   * unspecified order; the list is sorted by role next, so only characters of equal role can
   * come out in another order, which sort.Slice does not fix either.
   */
  function InsertionOrder(va: seq<VaCharacter>, vnID: string): seq<string>
    decreases |va|
  {
    if va == [] then []
    else
      var ks := InsertionOrder(va[..|va| - 1], vnID);
      var v := va[|va| - 1];
      if RoleIn(v.vns, vnID).Some? && v.id !in ks then ks + [v.id] else ks
  }

  predicate Distinct(ks: seq<string>) {
    forall i, j :: 0 <= i < j < |ks| ==> ks[i] != ks[j]
  }

  lemma {:induction false} InsertionOrderKeys(va: seq<VaCharacter>, vnID: string)
    ensures Distinct(InsertionOrder(va, vnID))
    ensures forall k :: k in InsertionOrder(va, vnID) <==> k in CharacterMapOf(va, vnID)
    decreases |va|
  {
    if va != [] {
      InsertionOrderKeys(va[..|va| - 1], vnID);
    }
  }

  /** Role codes in Go's string order, as the sort.Slice less function compares them. */
  function RoleOrder(): (CharacterData, CharacterData) -> bool {
    (a: CharacterData, b: CharacterData) => !GoText.StrLess(b.role, a.role)
  }

  lemma RoleOrderTotal()
    ensures Sorting.TotalPreorder(RoleOrder())
  {
    forall a: CharacterData, b: CharacterData
      ensures RoleOrder()(a, b) || RoleOrder()(b, a)
    {
      GoText.StrNotLessPreorder(a.role, b.role, b.role);
    }
    forall a: CharacterData, b: CharacterData, c: CharacterData | RoleOrder()(a, b) && RoleOrder()(b, c)
      ensures RoleOrder()(a, c)
    {
      GoText.StrNotLessPreorder(a.role, b.role, c.role);
    }
  }

  /** The map's values in insertion order. */
  function MapValues(m: map<string, CharacterData>, ks: seq<string>): seq<CharacterData>
    requires forall k :: k in ks ==> k in m
  {
    seq(|ks|, i requires 0 <= i < |ks| => m[ks[i]])
  }

  /** The characters of this VN, one per character id, ordered by role code. */
  function CharacterList(va: seq<VaCharacter>, vnID: string): seq<CharacterData> {
    InsertionOrderKeys(va, vnID);
    RoleOrderTotal();
    Sorting.SortBy(MapValues(CharacterMapOf(va, vnID), InsertionOrder(va, vnID)), RoleOrder())
  }

  method FindRole(vns: seq<VnRef>, vnID: string) returns (r: Option<string>)
    ensures r == RoleIn(vns, vnID)
  {
    var i := 0;
    while i < |vns|
      invariant 0 <= i <= |vns|
      invariant RoleIn(vns[i..], vnID) == RoleIn(vns, vnID)
    {
      if vns[i].id == vnID {
        return Some(vns[i].role);
      }
      assert vns[i..][1..] == vns[i + 1..];
      i := i + 1;
    }
    return None;
  }

  method BuildCharacterList(va: seq<VaCharacter>, vnID: string) returns (list: seq<CharacterData>)
    ensures list == CharacterList(va, vnID)
  {
    var m: map<string, CharacterData> := map[];
    var ks: seq<string> := [];
    var i := 0;
    while i < |va|
      invariant 0 <= i <= |va|
      invariant m == CharacterMapOf(va[..i], vnID) && ks == InsertionOrder(va[..i], vnID)
    {
      assert va[..i + 1][..i] == va[..i];
      var role := FindRole(va[i].vns, vnID);
      if role.Some? {
        if va[i].id !in ks {
          ks := ks + [va[i].id];
        }
        m := m[va[i].id := CharacterData(DisplayName(va[i]), role.value)];
      }
      i := i + 1;
    }
    assert va[..i] == va;
    InsertionOrderKeys(va, vnID);
    var values: seq<CharacterData> := [];
    var j := 0;
    while j < |ks|
      invariant 0 <= j <= |ks|
      invariant values == seq(j, t requires 0 <= t < j => m[ks[t]])
    {
      values := values + [m[ks[j]]];
      j := j + 1;
    }
    RoleOrderTotal();
    list := Sorting.SortBy(values, RoleOrder());
  }

  // ---- Related games ----

  /** The last title marked main, or "" when none is (the loop does not stop at one). */
  function LastMainTitle(titles: seq<RelationTitle>): string
    decreases |titles|
  {
    if titles == [] then ""
    else if titles[|titles| - 1].main then titles[|titles| - 1].title
    else LastMainTitle(titles[..|titles| - 1])
  }

  /** With no title marked main the shown title is "". */
  lemma {:induction false} LastMainTitleNone(titles: seq<RelationTitle>)
    requires forall i :: 0 <= i < |titles| ==> !titles[i].main
    ensures LastMainTitle(titles) == ""
    decreases |titles|
  {
    if titles != [] {
      var init := titles[..|titles| - 1];
      assert forall i :: 0 <= i < |init| ==> init[i] == titles[i];
      LastMainTitleNone(init);
    }
  }

  /** The shown title is the last title marked main. */
  lemma {:induction false} LastMainTitleLast(titles: seq<RelationTitle>, i: nat)
    requires i < |titles| && titles[i].main
    requires forall j :: i < j < |titles| ==> !titles[j].main
    ensures LastMainTitle(titles) == titles[i].title
    decreases |titles|
  {
    if i < |titles| - 1 {
      var init := titles[..|titles| - 1];
      assert init[i] == titles[i];
      assert forall j :: i < j < |init| ==> init[j] == titles[j];
      LastMainTitleLast(init, i);
    }
  }


  function RelationText(r: Relation): string {
    LastMainTitle(r.titles) + "(" + r.id + ")"
  }

  const NoRelations := "無"

  /** The related games joined by ", ", or the "none" text when that is blank. */
  function RelationsText(rels: seq<Relation>): string {
    var joined := GoText.Join(seq(|rels|, i requires 0 <= i < |rels| => RelationText(rels[i])), ", ");
    if GoText.TrimSpace(joined) == "" then NoRelations else joined
  }

  lemma LastMainTitleStep(titles: seq<RelationTitle>, j: nat)
    requires j < |titles|
    ensures LastMainTitle(titles[..j + 1])
            == if titles[j].main then titles[j].title else LastMainTitle(titles[..j])
  {
    assert titles[..j + 1][..j] == titles[..j];
  }

  /** The inner loop over one relation's titles. */
  method FindLastMainTitle(titles: seq<RelationTitle>) returns (titleName: string)
    ensures titleName == LastMainTitle(titles)
  {
    titleName := "";
    var j := 0;
    while j < |titles|
      invariant 0 <= j <= |titles|
      invariant titleName == LastMainTitle(titles[..j])
    {
      LastMainTitleStep(titles, j);
      if titles[j].main {
        titleName := titles[j].title;
      }
      j := j + 1;
    }
    assert titles[..j] == titles;
  }

  method BuildRelations(rels: seq<Relation>) returns (text: string)
    ensures text == RelationsText(rels)
  {
    var parts: seq<string> := [];
    var i := 0;
    while i < |rels|
      invariant 0 <= i <= |rels|
      invariant parts == seq(i, t requires 0 <= t < i => RelationText(rels[t]))
    {
      var titleName := FindLastMainTitle(rels[i].titles);
      ghost var next := seq(i + 1, t requires 0 <= t < i + 1 => RelationText(rels[t]));
      assert parts + [titleName + "(" + rels[i].id + ")"] == next by {
        assert forall t :: 0 <= t < i ==> next[t] == parts[t];
      }
      parts := parts + [titleName + "(" + rels[i].id + ")"];
      i := i + 1;
    }
    assert parts == seq(|rels|, t requires 0 <= t < |rels| => RelationText(rels[t]));
    text := GoText.Join(parts, ", ");
    if GoText.TrimSpace(text) == "" {
      text := NoRelations;
    }
  }

  // ---- The cover ----

  /**
   * The cover is dropped when vndb rates it sexual or violent at 1 or more; otherwise
   * utils.GenerateImage's allow-list policy decides. A blank result is the placeholder.
   */
  function CoverThumb(img: Cover, caller: Shared.Caller, allowList: set<string>): Thumb {
    var url :=
      if img.sexual >= 1.0 || img.violence >= 1.0 then ""
      else match Shared.GenerateImage(caller, allowList, img.url)
        case None => ""
        case Some(u) => u;
    ThumbFromUrl(url)
  }

  // ---- The page ----

  /** The developer's original name with the name in parentheses, or the name alone. */
  function DeveloperTitle(d: Developer): string {
    if GoText.TrimSpace(d.original) != "" then d.original + "(" + d.name + ")" else d.name
  }

  /** A section trimmed of white space, present only when something is left. */
  function TrimmedSection(s: string): Option<string> {
    if GoText.TrimSpace(s) != "" then Some(GoText.TrimSpace(s)) else None
  }

  function GameDetailOf(vn: VnDetail, caller: Shared.Caller, allowList: set<string>, listID: string): GameDetail
    requires |vn.developers| > 0
  {
    var brand := DeveloperTitle(vn.developers[0]);
    var credits := CreditsAsWritten(vn.staff).0;
    GameDetail(DisplayTitle(vn.title, vn.alttitle),
               if GoText.TrimSpace(brand) != "" then Some(brand) else None,
               TrimmedSection(credits.scenario), TrimmedSection(credits.art), TrimmedSection(credits.songs),
               vn.average, vn.rating, vn.votecount, GoText.Quo(vn.lengthMinutes, 60), vn.lengthVotes,
               CharacterList(vn.va, vn.id), RelationsText(vn.relations),
               CoverThumb(vn.image, caller, allowList), BackButton(VndbCommand, listID))
  }

  /** The game page of the first result; an empty result or developer list panics. */
  function GameComponents(res: VnResponse, caller: Shared.Caller, allowList: set<string>, listID: string): Outcome<BrandView> {
    if |res.results| == 0 || |res.results[0].developers| == 0 then Panics
    else Built(Game(GameDetailOf(res.results[0], caller, allowList, listID)))
  }

  method BuildGame(res: VnResponse, caller: Shared.Caller, allowList: set<string>, listID: string)
    returns (o: Outcome<BrandView>)
    ensures o == GameComponents(res, caller, allowList, listID)
  {
    if |res.results| == 0 {
      return Panics;
    }
    var vn := res.results[0];
    var gameTitle := vn.alttitle;
    if GoText.TrimSpace(gameTitle) == "" {
      gameTitle := vn.title;
    }
    if |vn.developers| == 0 {
      return Panics;
    }
    var brandTitle := vn.developers[0].original;
    if GoText.TrimSpace(brandTitle) != "" {
      brandTitle := brandTitle + "(" + vn.developers[0].name + ")";
    } else {
      brandTitle := vn.developers[0].name;
    }
    var credits := BuildCredits(vn.staff);
    var characters := BuildCharacterList(vn.va, vn.id);
    var relations := BuildRelations(vn.relations);
    var thumb := CoverThumb(vn.image, caller, allowList);
    var brand: Option<string> := None;
    if GoText.TrimSpace(brandTitle) != "" {
      brand := Some(brandTitle);
    }
    assert gameTitle == DisplayTitle(vn.title, vn.alttitle);
    return Built(Game(GameDetail(gameTitle, brand, TrimmedSection(credits.scenario), TrimmedSection(credits.art),
                                 TrimmedSection(credits.songs), vn.average, vn.rating, vn.votecount,
                                 GoText.Quo(vn.lengthMinutes, 60), vn.lengthVotes, characters, relations, thumb, BackButton(VndbCommand, listID))));
  }

  // ---- Routing and flows ----

  /** The vndb brand lists, the erogs brand lists, the vndb games by id, and the session index. */
  datatype BrandStores = BrandStores(vndb: map<string, ProducerResponse>, erogs: map<string, ErogsBrand>,
                                     games: map<string, VnResponse>, sessions: map<string, string>)

  datatype BrandStep = BrandStep(stores: BrandStores, actions: seq<Action<BrandView>>)

  function VndbStores(st: BrandStores): Navigator.Stores<ProducerResponse> {
    Navigator.Stores(st.vndb, st.sessions)
  }

  function ErogsStores(st: BrandStores): Navigator.Stores<ErogsBrand> {
    Navigator.Stores(st.erogs, st.sessions)
  }

  /** The switch on the second character of the command id and the behavior. */
  datatype Route = VndbPage | VndbSelect | VndbHome | ErogsPage | ErogsSelect | ErogsHome | Mismatch | ShortCommand

  function RouteOf(c: CIDV2): Route {
    if |c.commandID| < 2 then ShortCommand
    else if c.commandID[1] == '1' then
      match c.behavior
      case Page => VndbPage
      case SelectMenu => VndbSelect
      case BackToHome => VndbHome
      case DetailBtn => Mismatch
    else if c.commandID[1] == '2' then
      match c.behavior
      case Page => ErogsPage
      case SelectMenu => ErogsSelect
      case BackToHome => ErogsHome
      case DetailBtn => Mismatch
    else Mismatch
  }

  /**
   * vndbSearchBrandWithSelectMenuCIDV2 after its acknowledgment: the list's session must still
   * exist; then the loading edit, the game by the selected id from the store or from vndb
   * (`fetch`, stored before it is read), and the game page. No session is created.
   */
  function SelectSpec(st: BrandStores, c: CIDV2, caller: Shared.Caller, allowList: set<string>,
                      fetch: string -> Result<VnResponse, Err>): BrandStep {
    if c.behavior != SelectMenu then BrandStep(st, [Report(BehaviorIdError, EditComplex)])
    else if c.cacheID !in st.sessions then BrandStep(st, [Report(ErrCacheLost, EditComplex)])
    else
      var key := c.value;
      if key in st.games then
        BrandStep(st, [Loading, Deliver(GameComponents(st.games[key], caller, allowList, c.cacheID), EditComplex, EditComplex)])
      else
        match fetch(key)
        case Failure(e) => BrandStep(st, [Loading, FetchKey(key), Report(e, EditComplex)])
        case Success(r) =>
          BrandStep(st.(games := st.games[key := r]),
                    [Loading, FetchKey(key), Deliver(GameComponents(r, caller, allowList, c.cacheID), EditComplex, EditComplex)])
  }

  /** The inputs a brand interaction depends on besides the stores. */
  datatype Request = Request(
    cid: Option<CIDV2>, optDB: Result<string, Err>, keyword: Result<seq<Base64Url.byte>, Err>, handle: string,
    caller: Shared.Caller, allowList: set<string>, users: set<string>, played: Query, wish: Query)

  /** What the external clients answer: the vndb and erogs brand searches, a vndb game by id. */
  datatype Clients = Clients(vndbSearch: Result<ProducerResponse, Err>, erogsSearch: Result<ErogsBrand, Err>,
                             fetch: string -> Result<VnResponse, Err>)

  /** The erogs builder for this user's played and wished games. */
  function UserErogsBuilder(rq: Request): Navigator.Builder<ErogsBrand, BrandView> {
    var pw := PlayWish(rq.caller.userID, rq.users, rq.played, rq.wish);
    ErogsBuilder(pw.0, pw.1)
  }

  /** SearchBrandV2. */
  function SearchBrandSpec(st: BrandStores, rq: Request, cl: Clients): BrandStep {
    match rq.cid
    case None => SlashSpec(st, rq, cl)
    case Some(c) => ComponentSpec(st, c, rq, cl)
  }

  /** The slash command: the database option picks the searched list. */
  function SlashSpec(st: BrandStores, rq: Request, cl: Clients): BrandStep {
    if rq.optDB == Failure(ErrOptionTranslateFail) then BrandStep(st, [Report(ErrOptionTranslateFail, Legacy)])
    else
      var db := if rq.optDB.Success? then rq.optDB.value else "";
      if db == "1" then
        var s := Navigator.SearchListSpec(VndbStores(st), rq.keyword, rq.handle, cl.vndbSearch, VndbBuilder());
        BrandStep(st.(vndb := s.stores.results, sessions := s.stores.sessions), s.actions)
      else
        var s := Navigator.SearchListSpec(ErogsStores(st), rq.keyword, rq.handle, cl.erogsSearch, UserErogsBuilder(rq));
        BrandStep(st.(erogs := s.stores.results, sessions := s.stores.sessions), s.actions)
  }

  /** A component interaction, by its route. */
  function ComponentSpec(st: BrandStores, c: CIDV2, rq: Request, cl: Clients): BrandStep {
    match RouteOf(c)
    case ShortCommand => BrandStep(st, [Crash])
    case VndbPage =>
      (match ToPage(c)
       case Failure(e) => BrandStep(st, [Report(e, EditComplex)])
       case Success(p) => BrandStep(st, Navigator.ChangePageSpec(VndbStores(st), p, VndbBuilder()).actions))
    case VndbSelect =>
      var s := SelectSpec(st, c, rq.caller, rq.allowList, cl.fetch);
      BrandStep(s.stores, [DeferredUpdate] + s.actions)
    case VndbHome => BrandStep(st, Navigator.BackToHomeSpec(VndbStores(st), c, VndbBuilder()).actions)
    case ErogsPage =>
      (match ToPage(c)
       case Failure(e) => BrandStep(st, [Report(e, EditComplex)])
       case Success(p) => BrandStep(st, Navigator.ChangePageSpec(ErogsStores(st), p, UserErogsBuilder(rq)).actions))
    case ErogsSelect => BrandStep(st, [DeferredUpdate, Handoff(ErogsGameFlow)])
    case ErogsHome => BrandStep(st, Navigator.BackToHomeSpec(ErogsStores(st), c, UserErogsBuilder(rq)).actions)
    case Mismatch => BrandStep(st, [Report(ErrCIDBehaviorMismatch, EditComplex)])
  }

  method SelectGame(index: SessionIndex, games: CacheStore<VnResponse>, log: Transcript<BrandView>, c: CIDV2,
                    caller: Shared.Caller, allowList: set<string>, fetch: string -> Result<VnResponse, Err>,
                    ghost st: BrandStores)
    requires st.games == games.entries && st.sessions == index.entries
    modifies games, log
    ensures var s := SelectSpec(st, c, caller, allowList, fetch);
      games.entries == s.stores.games && log.actions == old(log.actions) + s.actions
  {
    if c.behavior != SelectMenu {
      log.Emit(Report(BehaviorIdError, EditComplex));
      return;
    }
    var session := index.Lookup(c.cacheID);
    if session.Failure? {
      log.Emit(Report(ErrCacheLost, EditComplex));
      return;
    }
    log.Emit(Loading);
    var res: VnResponse;
    var cached := games.Lookup(c.value);
    if cached.Success? {
      res := cached.value;
    } else {
      log.Emit(FetchKey(c.value));
      var fetched := fetch(c.value);
      if fetched.Failure? {
        log.Emit(Report(fetched.error, EditComplex));
        return;
      }
      res := fetched.value;
      games.Set(c.value, res);
    }
    var o := BuildGame(res, caller, allowList, c.cacheID);
    log.Emit(Deliver(o, EditComplex, EditComplex));
  }

  method SlashBrand(index: SessionIndex, vndb: CacheStore<ProducerResponse>, erogs: CacheStore<ErogsBrand>,
                    games: CacheStore<VnResponse>, log: Transcript<BrandView>, rq: Request, cl: Clients)
    modifies index, vndb, erogs, log
    ensures var s := SlashSpec(BrandStores(old(vndb.entries), old(erogs.entries), games.entries, old(index.entries)), rq, cl);
      && BrandStores(vndb.entries, erogs.entries, games.entries, index.entries) == s.stores
      && log.actions == old(log.actions) + s.actions
  {
    if rq.optDB.Failure? && rq.optDB.error == ErrOptionTranslateFail {
      log.Emit(Report(ErrOptionTranslateFail, Legacy));
      return;
    }
    var db := if rq.optDB.Success? then rq.optDB.value else "";
    if db == "1" {
      Navigator.SearchList(index, vndb, log, rq.keyword, rq.handle, cl.vndbSearch, VndbBuilder());
    } else {
      var played, wished := PlayWishMaps(rq.caller.userID, rq.users, rq.played, rq.wish);
      Navigator.SearchList(index, erogs, log, rq.keyword, rq.handle, cl.erogsSearch, ErogsBuilder(played, wished));
    }
  }

  method HandleComponent(index: SessionIndex, vndb: CacheStore<ProducerResponse>, erogs: CacheStore<ErogsBrand>,
                         games: CacheStore<VnResponse>, log: Transcript<BrandView>, c: CIDV2, rq: Request, cl: Clients)
    modifies index, vndb, erogs, games, log
    ensures var s := ComponentSpec(BrandStores(old(vndb.entries), old(erogs.entries), old(games.entries),
                                               old(index.entries)), c, rq, cl);
      && BrandStores(vndb.entries, erogs.entries, games.entries, index.entries) == s.stores
      && log.actions == old(log.actions) + s.actions
  {
    ghost var st := BrandStores(vndb.entries, erogs.entries, games.entries, index.entries);
    match RouteOf(c)
    case ShortCommand =>
      log.Emit(Crash);
    case VndbPage =>
      var p := ToPage(c);
      if p.Failure? {
        log.Emit(Report(p.error, EditComplex));
        return;
      }
      Navigator.ChangePage(index, vndb, log, p.value, VndbBuilder());
    case VndbSelect =>
      log.Emit(DeferredUpdate);
      SelectGame(index, games, log, c, rq.caller, rq.allowList, cl.fetch, st);
    case VndbHome =>
      Navigator.BackToHome(index, vndb, log, c, VndbBuilder());
    case ErogsPage =>
      var p := ToPage(c);
      if p.Failure? {
        log.Emit(Report(p.error, EditComplex));
        return;
      }
      var played, wished := PlayWishMaps(rq.caller.userID, rq.users, rq.played, rq.wish);
      Navigator.ChangePage(index, erogs, log, p.value, ErogsBuilder(played, wished));
    case ErogsSelect =>
      log.Emit(DeferredUpdate);
      log.Emit(Handoff(ErogsGameFlow));
    case ErogsHome =>
      var played, wished := PlayWishMaps(rq.caller.userID, rq.users, rq.played, rq.wish);
      Navigator.BackToHome(index, erogs, log, c, ErogsBuilder(played, wished));
    case Mismatch =>
      log.Emit(Report(ErrCIDBehaviorMismatch, EditComplex));
  }

  method SearchBrandV2(index: SessionIndex, vndb: CacheStore<ProducerResponse>, erogs: CacheStore<ErogsBrand>,
                       games: CacheStore<VnResponse>, log: Transcript<BrandView>, rq: Request, cl: Clients)
    modifies index, vndb, erogs, games, log
    ensures var s := SearchBrandSpec(BrandStores(old(vndb.entries), old(erogs.entries), old(games.entries),
                                                 old(index.entries)), rq, cl);
      && BrandStores(vndb.entries, erogs.entries, games.entries, index.entries) == s.stores
      && log.actions == old(log.actions) + s.actions
  {
    if rq.cid.None? {
      SlashBrand(index, vndb, erogs, games, log, rq, cl);
    } else {
      HandleComponent(index, vndb, erogs, games, log, rq.cid.value, rq, cl);
    }
  }

  // ---- The list pages ----

  /**
   * Every vndb game of a brand is on the page its position says: game i is row and menu entry
   * i % 7 of page i / 7 + 1, numbered i + 1, the entry's id is the game's, and that page is
   * within the pager's count. The header names the first producer found.
   */
  lemma VndbListShowsEveryGame(res: ProducerResponse, i: nat, cacheID: string)
    requires |res.producers| > 0 && i < |res.vns|
    ensures var page := i / PerPage + 1;
      var o := VndbListComponents(res, page, cacheID);
      && o.Built? && o.out.VndbList? && 1 <= page <= o.out.vndb.pager.totalPages
      && o.out.vndb.producer == res.producers[0] && o.out.vndb.total == |res.vns|
      && i % PerPage < |o.out.vndb.rows| && |o.out.vndb.rows| == |o.out.vndb.menu.items|
      && o.out.vndb.rows[i % PerPage] == VndbRowOf(i + 1, res.vns[i])
      && o.out.vndb.rows[i % PerPage].rating == res.vns[i].rating
      && o.out.vndb.menu.items[i % PerPage].id == res.vns[i].id
  {
    Paging.ItemPlacement(res.vns, PerPage, i);
    Paging.PageWithin(|res.vns|, PerPage, i);
  }

  /**
   * The vndb list indexes the producer list without a check: a search that found no producer
   * panics on every page. A producer with no games has zero pages (the count has no floor of one)
   * and its first page is empty.
   */
  lemma VndbListEdges(res: ProducerResponse, page: int, cacheID: string)
    ensures |res.producers| == 0 ==> VndbListComponents(res, page, cacheID) == Panics
    ensures |res.producers| > 0 && |res.vns| == 0 ==>
      var o := VndbListComponents(res, 1, cacheID);
      o.Built? && o.out.vndb.pager.totalPages == 0 && o.out.vndb.rows == [] && o.out.vndb.menu.items == []
    ensures |res.producers| > 0 && page < 1 ==> VndbListComponents(res, page, cacheID) == Panics
  {
    if page < 1 {
      Paging.StartNonNegative(page, PerPage);
    }
  }

  /**
   * Every erogs game of a brand is on the page its position says, with its marks, and choosing
   * its menu entry hands the handler an id that reads back as the game's erogs id.
   */
  lemma ErogsListShowsEveryGame(res: ErogsBrand, i: nat, cacheID: string, played: set<int>, wished: set<int>)
    requires i < |res.games|
    ensures var page := i / PerPage + 1;
      var o := ErogsListComponents(res, page, cacheID, played, wished);
      && o.Built? && o.out.ErogsList? && 1 <= page <= o.out.erogs.pager.totalPages
      && o.out.erogs.total == |res.games|
      && i % PerPage < |o.out.erogs.rows| && |o.out.erogs.rows| == |o.out.erogs.menu.items|
      && o.out.erogs.rows[i % PerPage] == ErogsRowOf(i + 1, res.games[i], played, wished)
      && o.out.erogs.menu.items[i % PerPage] == ErogsItem(res.games[i])
      && (GoText.IsInt64(res.games[i].id) ==>
            ErogsIds.NormaliseId(o.out.erogs.menu.items[i % PerPage].id) == Success(res.games[i].id))
  {
    Paging.ItemPlacement(res.games, PerPage, i);
    Paging.PageWithin(|res.games|, PerPage, i);
    if GoText.IsInt64(res.games[i].id) {
      ErogsIds.NormaliseMenuId(res.games[i].id);
    }
  }

  /**
   * The header of an erogs list: the brand name, marked when the brand is dissolved, and the
   * official site before the Twitter account, each present exactly when it is not blank.
   */
  lemma ErogsHeader(res: ErogsBrand)
    ensures res.lost <==> BrandTitle(res) == res.brandName + DissolvedMark
    ensures BrandTitle(res)[..|res.brandName|] == res.brandName
    ensures Official(res.url) in BrandLinks(res) <==> GoText.TrimSpace(res.url) != ""
    ensures TwitterLink(res.twitter) in BrandLinks(res) <==> GoText.TrimSpace(res.twitter) != ""
    ensures |BrandLinks(res)| == 2 ==> BrandLinks(res) == [Official(res.url), TwitterLink(res.twitter)]
  {
    if !res.lost {
      assert |BrandTitle(res)| < |res.brandName + DissolvedMark|;
    }
  }

  /**
   * The marks of a game row from the user's records: the played mark exactly when the user is
   * known, the played query did not fail and lists the game; the wish mark exactly when, in
   * addition, the wish query did not fail and lists the game. A record-not-found answer counts as
   * an empty list, not as a failure.
   */
  lemma MarksFromRecords(userID: string, users: set<string>, played: Query, wish: Query, id: int)
    ensures var pw := PlayWish(userID, users, played, wish);
      var known := GoText.TrimSpace(userID) != "" && userID in users && played.err != QueryFailed;
      && (id in pw.0 <==> known && id in played.ids)
      && (id in pw.1 <==> known && wish.err != QueryFailed && id in wish.ids)
      && (Marks(id, pw.0, pw.1) == "" <==> id !in pw.0 && id !in pw.1)
      && (id in pw.0 && id in pw.1 ==> Marks(id, pw.0, pw.1) == PlayedMark + WishMark)
  {
  }

  // ---- Selecting a game ----

  /**
   * Selecting a game writes at most the game store, under the selected id, and only a miss
   * fetches, by exactly that id. Nothing is loaded or fetched unless the list's session still
   * exists. A page that is delivered is the stored game's, with a back button to the list.
   */
  lemma SelectKeepsSession(st: BrandStores, c: CIDV2, caller: Shared.Caller, allowList: set<string>,
                           fetch: string -> Result<VnResponse, Err>)
    ensures var s := SelectSpec(st, c, caller, allowList, fetch);
      && s.stores.vndb == st.vndb && s.stores.erogs == st.erogs && s.stores.sessions == st.sessions
      && (forall id :: id != c.value && id in st.games ==> id in s.stores.games && s.stores.games[id] == st.games[id])
      && (forall id :: id in s.stores.games ==> id in st.games || id == c.value)
      && (Loading in s.actions || s.stores != st ==> c.behavior == SelectMenu && c.cacheID in st.sessions)
      && (forall k :: FetchKey(k) in s.actions ==> k == c.value && c.value !in st.games)
      && (s.actions[|s.actions| - 1].Send? ==>
            && c.value in s.stores.games
            && GameComponents(s.stores.games[c.value], caller, allowList, c.cacheID).Built?
            && s.actions[|s.actions| - 1] == Send(EditComplex, GameComponents(s.stores.games[c.value], caller, allowList, c.cacheID).out))
  {
  }

  /**
   * An empty vndb answer is stored before it is read: the page panics, and every later choice of
   * the same id panics again straight from the store, without asking vndb.
   */
  lemma EmptyAnswerPanicsAgain(st: BrandStores, c: CIDV2, caller: Shared.Caller, allowList: set<string>,
                               fetch: string -> Result<VnResponse, Err>, later: string -> Result<VnResponse, Err>)
    requires c.behavior == SelectMenu && c.cacheID in st.sessions && c.value !in st.games
    requires fetch(c.value) == Success(VnResponse([]))
    ensures var first := SelectSpec(st, c, caller, allowList, fetch);
      var second := SelectSpec(first.stores, c, caller, allowList, later);
      && first.actions == [Loading, FetchKey(c.value), Crash]
      && second.actions == [Loading, Crash] && second.stores == first.stores
  {
  }

  /**
   * The back button of a game page, pressed, renders page 1 of the vndb list session it names under
   * the same handle, or reports the lost session; nothing is written.
   */
  lemma BackReturnsToList(st: BrandStores, rq: Request, cl: Clients, g: GameDetail, v: string)
    requires g.back.commandID == VndbCommand
    requires rq.cid == Some(CIDV2(g.back.commandID, BackToHome, g.back.cacheID, v))
    ensures var s := SearchBrandSpec(st, rq, cl);
      var r := Navigator.Resolve(VndbStores(st), g.back.cacheID);
      && s.stores == st
      && (r.Success? ==> s.actions == [Deliver(VndbListComponents(r.value, 1, g.back.cacheID), EditComplex, EditComplex)])
      && (r.Failure? ==> s.actions == [Report(ErrCacheLost, EditComplex)])
  {
    Navigator.BackToHomeRenders(VndbStores(st), rq.cid.value, VndbBuilder());
  }

  /**
   * Select, then back: after a game is shown from a vndb list, its back button brings page 1 of
   * the same list back, because the selection left the session and the list store as they were.
   */
  lemma SelectThenBack(st: BrandStores, rq: Request, cl: Clients, v: string)
    requires rq.cid.Some? && RouteOf(rq.cid.value) == VndbSelect
    requires Navigator.Resolve(VndbStores(st), rq.cid.value.cacheID).Success?
    requires SelectSpec(st, rq.cid.value, rq.caller, rq.allowList, cl.fetch).actions[|SelectSpec(st, rq.cid.value, rq.caller, rq.allowList, cl.fetch).actions| - 1].Send?
    requires |Navigator.Resolve(VndbStores(st), rq.cid.value.cacheID).value.producers| > 0
    ensures var s := SearchBrandSpec(st, rq, cl);
      var last := s.actions[|s.actions| - 1];
      var back := CIDV2(last.out.game.back.commandID, BackToHome, last.out.game.back.cacheID, v);
      var s2 := SearchBrandSpec(s.stores, rq.(cid := Some(back)), cl);
      var list := Navigator.Resolve(VndbStores(st), rq.cid.value.cacheID).value;
      && last.Send? && last.out.Game?
      && VndbListComponents(list, 1, rq.cid.value.cacheID).Built?
      && s2.stores == s.stores
      && s2.actions == [Send(EditComplex, VndbListComponents(list, 1, rq.cid.value.cacheID).out)]
  {
    var c := rq.cid.value;
    SelectKeepsSession(st, c, rq.caller, rq.allowList, cl.fetch);
    var s := SearchBrandSpec(st, rq, cl);
    var last := s.actions[|s.actions| - 1];
    var back := CIDV2(last.out.game.back.commandID, BackToHome, last.out.game.back.cacheID, v);
    BackReturnsToList(s.stores, rq.(cid := Some(back)), cl, last.out.game, v);
  }

  // ---- The game page ----

  lemma BlankPrefix(a: string, b: string)
    ensures GoText.TrimSpace(a) != "" ==> GoText.TrimSpace(a + b) != ""
  {
    GoText.TrimSpaceEmptyIffBlank(a);
    GoText.TrimSpaceEmptyIffBlank(a + b);
    if GoText.IsBlank(a + b) {
      assert forall i :: 0 <= i < |a| ==> (a + b)[i] == a[i];
    }
  }

  /**
   * The game page of the first result: the alternative title unless it is blank; the brand as
   * "original(name)" when the developer's original name is not blank, else the name, and no brand
   * line when that is blank; a staff block absent when nobody has its role; and a back
   * button to the list. Without a result or a developer the page panics.
   */
  lemma GamePage(res: VnResponse, caller: Shared.Caller, allowList: set<string>, listID: string)
    ensures |res.results| == 0 || |res.results[0].developers| == 0 ==> GameComponents(res, caller, allowList, listID) == Panics
    ensures |res.results| > 0 && |res.results[0].developers| > 0 ==>
      var o := GameComponents(res, caller, allowList, listID);
      var vn := res.results[0];
      var d := vn.developers[0];
      && o.Built? && o.out.Game?
      && o.out.game.title == (if GoText.TrimSpace(vn.alttitle) != "" then vn.alttitle else vn.title)
      && o.out.game.brand == (if GoText.TrimSpace(d.original) != "" then Some(d.original + "(" + d.name + ")")
                              else if GoText.TrimSpace(d.name) != "" then Some(d.name) else None)
      && ((forall i :: 0 <= i < |vn.staff| ==> vn.staff[i].role != "scenario") ==> o.out.game.scenario == None)
      && ((forall i :: 0 <= i < |vn.staff| ==> vn.staff[i].role != "art") ==> o.out.game.art == None)
      && ((forall i :: 0 <= i < |vn.staff| ==> vn.staff[i].role != "songs") ==> o.out.game.songs == None)
      && o.out.game.average == vn.average && o.out.game.rating == vn.rating
      && o.out.game.votecount == vn.votecount && o.out.game.hours == GoText.Quo(vn.lengthMinutes, 60)
      && o.out.game.lengthVotes == vn.lengthVotes
      && o.out.game.back == BackButton(VndbCommand, listID)
  {
    if |res.results| > 0 && |res.results[0].developers| > 0 {
      var d := res.results[0].developers[0];
      BlankPrefix(d.original, "(" + d.name + ")");
      assert d.original + "(" + d.name + ")" == d.original + ("(" + d.name + ")");
      CreditsRoles(res.results[0].staff);
    }
  }

  /**
   * When every staff member has aliases, nothing is carried over, and the page's staff blocks
   * are the per-member credits.
   */
  lemma GamePageOwnAliases(res: VnResponse, caller: Shared.Caller, allowList: set<string>, listID: string)
    requires |res.results| > 0 && |res.results[0].developers| > 0
    requires forall i :: 0 <= i < |res.results[0].staff| ==> |res.results[0].staff[i].aliases| > 0
    ensures var o := GameComponents(res, caller, allowList, listID);
      var c := CreditsOf(res.results[0].staff);
      && o.Built? && o.out.Game?
      && o.out.game.scenario == TrimmedSection(c.scenario)
      && o.out.game.art == TrimmedSection(c.art)
      && o.out.game.songs == TrimmedSection(c.songs)
  {
    AsWrittenWhenAliased(res.results[0].staff);
  }

  /** The credit block of one of the three shown roles. */
  function Block(c: Credits, role: string): string {
    if role == "scenario" then c.scenario else if role == "art" then c.art else c.songs
  }

  predicate ShownRole(role: string) {
    role == "scenario" || role == "art" || role == "songs"
  }

  /** Adding a non-empty line leaves a block empty exactly when the line is of another role. */
  lemma AddCreditEmpty(c: Credits, role: string, line: string, block: string)
    requires |line| > 0 && ShownRole(block)
    ensures Block(AddCredit(c, role, line), block) == "" <==> Block(c, block) == "" && role != block
  {
  }

  /** A block of the loop as written is empty exactly when nobody on the staff has its role. */
  lemma {:induction false} BlockEmpty(staff: seq<Staff>, block: string)
    requires ShownRole(block)
    ensures Block(CreditsAsWritten(staff).0, block) == "" <==> forall i :: 0 <= i < |staff| ==> staff[i].role != block
    decreases |staff|
  {
    if staff != [] {
      var init, last := staff[..|staff| - 1], staff[|staff| - 1];
      var prev := CreditsAsWritten(init);
      var alias := if |last.aliases| > 0 then OwnAlias(last) else prev.1;
      BlockEmpty(init, block);
      AddCreditEmpty(prev.0, last.role, StaffLine(last, alias), block);
      assert CreditsAsWritten(staff).0 == AddCredit(prev.0, last.role, StaffLine(last, alias));
      assert forall i :: 0 <= i < |init| ==> init[i] == staff[i];
    }
  }

  /** A credit block is empty exactly when nobody on the staff has its role. */
  lemma CreditsRoles(staff: seq<Staff>)
    ensures CreditsAsWritten(staff).0.scenario == "" <==> forall i :: 0 <= i < |staff| ==> staff[i].role != "scenario"
    ensures CreditsAsWritten(staff).0.art == "" <==> forall i :: 0 <= i < |staff| ==> staff[i].role != "art"
    ensures CreditsAsWritten(staff).0.songs == "" <==> forall i :: 0 <= i < |staff| ==> staff[i].role != "songs"
  {
    BlockEmpty(staff, "scenario");
    BlockEmpty(staff, "art");
    BlockEmpty(staff, "songs");
  }

  lemma MergeAdd(x: Credits, y: Credits, role: string, line: string)
    ensures AddCredit(Merge(x, y), role, line) == Merge(x, AddCredit(y, role, line))
  {
    assert x.scenario + y.scenario + line == x.scenario + (y.scenario + line);
    assert x.art + y.art + line == x.art + (y.art + line);
    assert x.songs + y.songs + line == x.songs + (y.songs + line);
  }

  /** The staff block of a list of staff is the blocks of its parts, one after the other. */
  lemma {:induction false} CreditsAppend(a: seq<Staff>, b: seq<Staff>)
    ensures CreditsOf(a + b) == Merge(CreditsOf(a), CreditsOf(b))
    decreases |b|
  {
    if b == [] {
      assert a + b == a;
      var c := CreditsOf(a);
      assert c.scenario + "" == c.scenario && c.art + "" == c.art && c.songs + "" == c.songs;
    } else {
      var init, last := b[..|b| - 1], b[|b| - 1];
      assert (a + b)[..|a + b| - 1] == a + init && (a + b)[|a + b| - 1] == last;
      assert CreditsOf(a + b) == AddCredit(CreditsOf(a + init), last.role, CreditLine(last));
      assert CreditsOf(b) == AddCredit(CreditsOf(init), last.role, CreditLine(last));
      CreditsAppend(a, init);
      MergeAdd(CreditsOf(a), CreditsOf(init), last.role, CreditLine(last));
    }
  }

  /** One staff member is credited in the block of that member's role, under that member's own aliases. */
  lemma CreditOne(s: Staff)
    ensures CreditsOf([s]) == AddCredit(NoCredits, s.role, StaffName(s) + " " + OwnAlias(s) + "\n")
    ensures OwnAlias(s) == "" <==> forall i :: 0 <= i < |s.aliases| ==> s.aliases[i].isMain
  {
    assert [s][..0] == [];
    OtherAliasesContents(s.aliases);
    if OtherAliases(s.aliases) != [] {
      assert AliasText(OtherAliases(s.aliases))[0] == '(';
    }
  }

  /** The loop as written agrees with the per-member credits whenever every member has an alias. */
  lemma {:induction false} AsWrittenWhenAliased(staff: seq<Staff>)
    requires forall i :: 0 <= i < |staff| ==> |staff[i].aliases| > 0
    ensures CreditsAsWritten(staff).0 == CreditsOf(staff)
    decreases |staff|
  {
    if staff != [] {
      AsWrittenWhenAliased(staff[..|staff| - 1]);
    }
  }

  /**
   * The loop as written credits an artist who has no aliases with the writer's alias text: the
   * artist is shown as "Artist (W)" where the artist's own credit is "Artist ".
   */
  lemma CarriedAliasShown()
    ensures var staff := [Staff("Writer", "", [StaffAlias("W", false)], "scenario"), Staff("Artist", "", [], "art")];
      && CreditsAsWritten(staff).0.art == "Artist (W)\n"
      && CreditsOf(staff).art == "Artist \n"
  {
    var writer := Staff("Writer", "", [StaffAlias("W", false)], "scenario");
    var artist := Staff("Artist", "", [], "art");
    var staff := [writer, artist];
    assert staff[..1] == [writer] && [writer][..0] == [];
    assert OtherAliases(writer.aliases) == ["W"] by {
      assert writer.aliases[..0] == [];
    }
    assert OwnAlias(writer) == "(W)";
  }

  // ---- Characters and relations ----

  /** The role of a character in this VN is that of its first appearance in it, if any. */
  lemma {:induction false} RoleInFirst(vns: seq<VnRef>, vnID: string)
    ensures RoleIn(vns, vnID).None? <==> forall i :: 0 <= i < |vns| ==> vns[i].id != vnID
    ensures RoleIn(vns, vnID).Some? ==> exists i :: 0 <= i < |vns| && vns[i].id == vnID && vns[i].role == RoleIn(vns, vnID).value
                                                    && forall j :: 0 <= j < i ==> vns[j].id != vnID
    decreases |vns|
  {
    if vns != [] && vns[0].id != vnID {
      RoleInFirst(vns[1..], vnID);
      assert forall i :: 0 < i < |vns| ==> vns[1..][i - 1] == vns[i];
      if RoleIn(vns, vnID).Some? {
        var i :| 0 <= i < |vns[1..]| && vns[1..][i].id == vnID && vns[1..][i].role == RoleIn(vns, vnID).value
                 && forall j :: 0 <= j < i ==> vns[1..][j].id != vnID;
        assert vns[i + 1] == vns[1..][i];
        assert forall j :: 0 < j < i + 1 ==> vns[j] == vns[1..][j - 1];
      }
    }
  }

  /** The character ids of this VN: those voiced characters that appear in it. */
  predicate Appears(va: seq<VaCharacter>, vnID: string, i: int) {
    0 <= i < |va| && RoleIn(va[i].vns, vnID).Some?
  }

  /** A character is in the map exactly when its id appears in this VN somewhere in the list. */
  lemma {:induction false} CharacterMapKeys(va: seq<VaCharacter>, vnID: string)
    ensures forall k :: k in CharacterMapOf(va, vnID) <==> exists i :: Appears(va, vnID, i) && va[i].id == k
    decreases |va|
  {
    if va != [] {
      var init, last := va[..|va| - 1], va[|va| - 1];
      CharacterMapKeys(init, vnID);
      forall k
        ensures k in CharacterMapOf(va, vnID) <==> exists i :: Appears(va, vnID, i) && va[i].id == k
      {
        if k in CharacterMapOf(init, vnID) {
          var i :| Appears(init, vnID, i) && init[i].id == k;
          assert Appears(va, vnID, i) && va[i].id == k;
        }
        if exists i :: Appears(va, vnID, i) && va[i].id == k {
          var i :| Appears(va, vnID, i) && va[i].id == k;
          if i < |init| {
            assert Appears(init, vnID, i) && init[i].id == k;
          }
        }
      }
    }
  }

  /** No later appearance of the same id in this VN. */
  predicate LastAppearance(va: seq<VaCharacter>, vnID: string, i: int) {
    Appears(va, vnID, i) && forall j :: i < j < |va| && va[j].id == va[i].id ==> !Appears(va, vnID, j)
  }

  /**
   * The entry of a character is taken from the last appearance of its id: named by its original
   * name, else its name, with that appearance's role.
   */
  lemma {:induction false} CharacterMapLastWins(va: seq<VaCharacter>, vnID: string)
    ensures forall i :: LastAppearance(va, vnID, i) ==>
      (va[i].id in CharacterMapOf(va, vnID)
       && CharacterMapOf(va, vnID)[va[i].id] == CharacterData(DisplayName(va[i]), RoleIn(va[i].vns, vnID).value))
    decreases |va|
  {
    if va != [] {
      var init, last := va[..|va| - 1], va[|va| - 1];
      CharacterMapLastWins(init, vnID);
      forall i | LastAppearance(va, vnID, i)
        ensures va[i].id in CharacterMapOf(va, vnID)
        ensures CharacterMapOf(va, vnID)[va[i].id] == CharacterData(DisplayName(va[i]), RoleIn(va[i].vns, vnID).value)
      {
        if i < |init| {
          assert init[i] == va[i];
          assert LastAppearance(init, vnID, i) by {
            forall j | i < j < |init| && init[j].id == init[i].id
              ensures !Appears(init, vnID, j)
            {
              assert init[j] == va[j];
            }
          }
          assert !Appears(va, vnID, |va| - 1) || last.id != va[i].id;
        }
      }
    }
  }

  /** The map's values listed by a key sequence holding exactly its keys are exactly its entries. */
  lemma MapValuesContents(m: map<string, CharacterData>, ks: seq<string>)
    requires forall k :: k in ks <==> k in m
    ensures forall x :: x in MapValues(m, ks) <==> exists k :: k in m && m[k] == x
  {
    var values := MapValues(m, ks);
    forall x
      ensures x in values <==> exists k :: k in m && m[k] == x
    {
      if x in values {
        var t :| 0 <= t < |values| && values[t] == x;
        assert ks[t] in m && m[ks[t]] == x;
      }
      if exists k :: k in m && m[k] == x {
        var k :| k in m && m[k] == x;
        var t :| 0 <= t < |ks| && ks[t] == k;
        assert values[t] == x;
      }
    }
  }

  /** The list holds exactly the map's entries. */
  ghost predicate HoldsEntriesOf(list: seq<CharacterData>, m: map<string, CharacterData>) {
    forall x :: x in list <==> exists k :: k in m && m[k] == x
  }

  /** Sorting the values listed by the keys keeps exactly the map's entries, one per key. */
  lemma SortedValues(m: map<string, CharacterData>, ks: seq<string>, list: seq<CharacterData>)
    requires forall k :: k in ks <==> k in m
    requires Sorting.TotalPreorder(RoleOrder())
    requires list == Sorting.SortBy(MapValues(m, ks), RoleOrder())
    ensures Sorting.SortedBy(list, RoleOrder())
    ensures |list| == |ks|
    ensures HoldsEntriesOf(list, m)
  {
    MapValuesContents(m, ks);
    var values := MapValues(m, ks);
    forall x
      ensures x in list <==> x in values
    {
      assert x in list <==> x in multiset(list);
      assert x in values <==> x in multiset(values);
    }
  }

  /**
   * The characters listed are the map's entries, each once, in role order: ordered by role code,
   * as many as there are character ids, and each of them an entry of the map.
   */
  lemma CharacterListContents(va: seq<VaCharacter>, vnID: string)
    ensures Sorting.SortedBy(CharacterList(va, vnID), RoleOrder())
    ensures |CharacterList(va, vnID)| == |InsertionOrder(va, vnID)|
    ensures HoldsEntriesOf(CharacterList(va, vnID), CharacterMapOf(va, vnID))
  {
    InsertionOrderKeys(va, vnID);
    RoleOrderTotal();
    SortedValues(CharacterMapOf(va, vnID), InsertionOrder(va, vnID), CharacterList(va, vnID));
  }


  /** The related-games line says "none" exactly when vndb lists no related game. */
  lemma RelationsNone(rels: seq<Relation>)
    ensures RelationsText(rels) == NoRelations <==> |rels| == 0
  {
    if |rels| > 0 {
      var parts := seq(|rels|, i requires 0 <= i < |rels| => RelationText(rels[i]));
      var joined := GoText.Join(parts, ", ");
      var t := LastMainTitle(rels[0].titles);
      assert parts[0] == t + "(" + rels[0].id + ")";
      assert joined[..|parts[0]|] == parts[0];
      assert joined[|t|] == '(';
      GoText.TrimSpaceEmptyIffBlank(joined);
      assert !GoText.IsBlank(joined) by {
        assert !GoText.IsSpace(joined[|t|]);
      }
      assert |joined| >= 2;
    }
  }

  /**
   * The cover: a cover vndb rates sexual or violent at 1 or more is never shown; any other is shown,
   * as given, exactly when its URL is not blank and the allow-list policy lets the caller see it.
   */
  lemma CoverPolicy(img: Cover, caller: Shared.Caller, allowList: set<string>)
    ensures img.sexual >= 1.0 || img.violence >= 1.0 ==> CoverThumb(img, caller, allowList) == Placeholder
    ensures img.sexual < 1.0 && img.violence < 1.0 ==>
      (CoverThumb(img, caller, allowList) == Url(img.url) <==>
         GoText.TrimSpace(img.url) != "" && Shared.GenerateImage(caller, allowList, img.url).Some?)
    ensures !CoverThumb(img, caller, allowList).Url? ==> CoverThumb(img, caller, allowList) == Placeholder
  {
    assert GoText.TrimSpace("") == "";
  }

  // ---- Routing ----

  /**
   * The option cases of SearchBrandV2: a failed translation of the database option goes to the
   * legacy error path untouched; database "1" searches vndb and anything else, a missing option
   * included, searches erogs.
   */
  lemma SlashRouting(st: BrandStores, rq: Request, cl: Clients)
    requires rq.cid.None?
    ensures rq.optDB == Failure(ErrOptionTranslateFail) ==>
      SearchBrandSpec(st, rq, cl) == BrandStep(st, [Report(ErrOptionTranslateFail, Legacy)])
    ensures rq.optDB == Success("1") ==>
      var s := SearchBrandSpec(st, rq, cl);
      s.stores.erogs == st.erogs && s.stores.games == st.games && (Search in s.actions ==> st.vndb != s.stores.vndb || cl.vndbSearch.Failure?)
    ensures rq.optDB != Success("1") && rq.optDB != Failure(ErrOptionTranslateFail) ==>
      var s := SearchBrandSpec(st, rq, cl);
      s.stores.vndb == st.vndb && s.stores.games == st.games
  {
  }

  /**
   * The token cases of SearchBrandV2: a token whose command id has fewer than two characters
   * panics; an erogs selection is acknowledged and handed to the game flow; and a token never
   * changes the list stores or the sessions.
   */
  lemma TokenRouting(st: BrandStores, rq: Request, cl: Clients)
    requires rq.cid.Some?
    ensures |rq.cid.value.commandID| < 2 ==> SearchBrandSpec(st, rq, cl) == BrandStep(st, [Crash])
    ensures RouteOf(rq.cid.value) == ErogsSelect ==>
      SearchBrandSpec(st, rq, cl) == BrandStep(st, [DeferredUpdate, Handoff(ErogsGameFlow)])
    ensures var s := SearchBrandSpec(st, rq, cl);
      s.stores.vndb == st.vndb && s.stores.erogs == st.erogs && s.stores.sessions == st.sessions
  {
    if RouteOf(rq.cid.value) == VndbSelect {
      SelectKeepsSession(st, rq.cid.value, rq.caller, rq.allowList, cl.fetch);
    }
  }
}
