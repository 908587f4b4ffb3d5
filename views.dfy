/**
 * The parts of a rendered message the handlers share, reduced to what they carry: which
 * picture a thumbnail shows, which items a select menu offers, and what the page controls
 * and the back button encode.
 */
module Views {
  import opened Wrappers
  import GoText
  import Shared
  import Cid

  /**
   * A thumbnail: a URL as given, the DMM cover of a code (erogs.MakeDMMImageURL, not part of
   * this model), or utils.PlaceholderImageURL.
   */
  datatype Thumb = Url(url: string) | Dmm(code: string) | Placeholder

  /** The placeholder when the URL is blank, otherwise the URL itself. */
  function ThumbFromUrl(url: string): (t: Thumb)
    ensures t.Placeholder? <==> GoText.TrimSpace(url) == ""
    ensures t.Url? ==> t.url == url
  {
    if GoText.TrimSpace(url) == "" then Placeholder else Url(url)
  }

  /** The DMM cover when the code is not blank, otherwise the placeholder. */
  function ThumbFromDmm(code: string): (t: Thumb)
    ensures t.Placeholder? <==> GoText.TrimSpace(code) == ""
    ensures t.Dmm? ==> t.code == code
  {
    if GoText.TrimSpace(code) == "" then Placeholder else Dmm(code)
  }

  /**
   * The thumbnail of a detail page that may show a character's picture: the trimmed URL when it
   * is not blank and utils.GenerateImage's allow-list policy lets the caller see it, otherwise
   * the placeholder.
   */
  function GatedThumb(c: Shared.Caller, allowList: set<string>, url: string): (t: Thumb)
    ensures t.Url? <==> GoText.TrimSpace(url) != "" && Shared.GenerateImage(c, allowList, GoText.TrimSpace(url)).Some?
    ensures t.Url? ==> t.url == GoText.TrimSpace(url)
    ensures !t.Url? ==> t == Placeholder
  {
    var u := GoText.TrimSpace(url);
    if u == "" then Placeholder
    else
      match Shared.GenerateImage(c, allowList, u)
      case None => Placeholder
      case Some(v) => Url(v)
  }

  /** utils.SelectMenuItem. */
  datatype MenuItem = MenuItem(title: string, id: string)

  /** utils.MakeSelectMenuComponent(items, commandID, cacheID, placeholder): a menu of one session. */
  datatype Menu = Menu(commandID: string, cacheID: string, items: seq<MenuItem>)

  /** utils.MakeChangePageComponent(commandID, currentPage, totalPages, cacheID). */
  datatype Pager = Pager(commandID: string, page: int, totalPages: int, cacheID: string)

  /** utils.MakeBackToHomeComponent(commandID, cacheID). */
  datatype BackButton = BackButton(commandID: string, cacheID: string)

  /** The token a choice from a menu sends: the chosen item's id under the menu's session. */
  function MenuChoice(m: Menu, k: nat): Cid.CIDV2
    requires k < |m.items|
  {
    Cid.CIDV2(m.commandID, Cid.SelectMenu, m.cacheID, m.items[k].id)
  }
}
