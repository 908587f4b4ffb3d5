/**
 * The navigation token (the bot's CIDV2) as a value. Its wire encoding and parser are not part
 * of this model; every handler sees an already parsed token, and the narrowing views below are
 * what the handlers ask of it.
 */
module Cid {
  import opened Wrappers
  import opened Errors
  import GoText

  datatype Behavior = Page | SelectMenu | BackToHome | DetailBtn

  /**
   * commandID names the feature and sub-mode ("C2", "CD2", "H1", ...), cacheID is the session
   * handle and value is the behaviour-specific payload (a page number, a selected item id).
   */
  datatype CIDV2 = CIDV2(commandID: string, behavior: Behavior, cacheID: string, value: string)

  /** The page view of a token: its session handle and its page number. */
  datatype PageCID = PageCID(cacheID: string, value: int)

  /**
   * The page view: only a Page token has one, and its value must be a decimal integer
   * (strconv.Atoi). The handle is passed through untouched.
   */
  function ToPage(c: CIDV2): (r: Result<PageCID, Err>)
    ensures r.Success? <==> c.behavior == Page && GoText.Atoi(c.value).Success?
    ensures r.Success? ==> r.value == PageCID(c.cacheID, GoText.Atoi(c.value).value)
    ensures c.behavior != Page ==> r == Failure(ErrCIDBehaviorMismatch)
  {
    if c.behavior != Page then Failure(ErrCIDBehaviorMismatch)
    else
      match GoText.Atoi(c.value)
      case Failure(e) => Failure(e)
      case Success(n) => Success(PageCID(c.cacheID, n))
  }

  /** cid.ChangeValue: the same token carrying another payload. */
  function WithValue(c: CIDV2, v: string): (r: CIDV2)
    ensures r.value == v
    ensures r.commandID == c.commandID && r.behavior == c.behavior && r.cacheID == c.cacheID
  {
    c.(value := v)
  }
}
