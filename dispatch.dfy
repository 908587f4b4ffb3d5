/**
 * bot/interaction.go: which handler an inbound interaction reaches. Slash commands are routed
 * by name; component clicks by their custom ID, either the legacy "|"-separated form routed by
 * its first field or a navigation token routed by the first character of its commandID. The
 * `go` statements that start the handlers are reduced to the choice of handler.
 */
module Dispatch {
  import opened Wrappers
  import opened Errors
  import opened Cid
  import GoText

  datatype InteractionType = Ping | ApplicationCommand | MessageComponent | Autocomplete | ModalSubmit

  datatype Handler =
    | Helper | VndbStats | SearchGame | SearchBrand | SearchCreator | SearchMusic | SearchCharacter
    | AddHasPlayed | AddInWish | RandomCharacter | RandomGame | GetUserinfo | RemoveHasPlayed | RemoveInWish

  /**
   * The interaction as the dispatcher reads it: its type, the slash command's name, the
   * component's custom ID and the values chosen in a select menu.
   */
  datatype Interaction = Interaction(kind: InteractionType, commandName: string, customID: string, values: seq<string>)

  /** The token handed to the handler: none (nil), a legacy token, or a navigation token. */
  datatype Token = NoToken | LegacyToken(fields: seq<string>) | V2(cid: CIDV2)

  datatype Dispatch =
    | Ignored                          // no handler, no response
    | Invoke(handler: Handler, token: Token)
    | Rejected(err: Err)               // utils.HandleError, no handler runs
    | Panicked                         // Values[0] of an empty selection

  /** The slash commands, by name. */
  function SlashRoute(name: string): Option<Handler> {
    if name == "幫助" then Some(Helper)
    else if name == "vndb統計資料" then Some(VndbStats)
    else if name == "查詢遊戲" then Some(SearchGame)
    else if name == "查詢公司品牌" then Some(SearchBrand)
    else if name == "查詢創作者" then Some(SearchCreator)
    else if name == "查詢音樂" then Some(SearchMusic)
    else if name == "查詢角色" then Some(SearchCharacter)
    else if name == "加已玩" then Some(AddHasPlayed)
    else if name == "加收藏" then Some(AddInWish)
    else if name == "隨機角色" then Some(RandomCharacter)
    else if name == "隨機遊戲" then Some(RandomGame)
    else if name == "個人資料" then Some(GetUserinfo)
    else if name == "刪除已玩" then Some(RemoveHasPlayed)
    else if name == "刪除收藏" then Some(RemoveInWish)
    else None
  }

  /** The five commands still reachable through a legacy token, by its command name. */
  function LegacyRoute(name: string): Option<Handler> {
    if name == "加已玩" then Some(AddHasPlayed)
    else if name == "加收藏" then Some(AddInWish)
    else if name == "個人資料" then Some(GetUserinfo)
    else if name == "刪除已玩" then Some(RemoveHasPlayed)
    else if name == "刪除收藏" then Some(RemoveInWish)
    else None
  }

  /** The domain tag of a navigation token: the first character of its commandID. */
  function DomainRoute(tag: char): Option<Handler> {
    match tag
    case 'G' => Some(SearchGame)
    case 'B' => Some(SearchBrand)
    case 'M' => Some(SearchMusic)
    case 'C' => Some(SearchCreator)
    case 'H' => Some(SearchCharacter)
    case _ => None
  }

  /**
   * onInteractionMessageComponent. `parsed` is what utils.ParseCIDV2 makes of the custom ID,
   * consulted only when the custom ID has no "|".
   */
  function OnMessageComponent(customID: string, values: seq<string>, parsed: Option<CIDV2>): Dispatch {
    var fields := GoText.Split(customID, '|');
    if |fields| > 1 then
      match LegacyRoute(fields[0])
      case Some(h) => Invoke(h, LegacyToken(fields))
      case None => Ignored
    else
      match parsed
      case None => Rejected(ErrCIDWrongFormat)
      case Some(c0) =>
        if c0.behavior == SelectMenu && |values| == 0 then Panicked
        else
          var c := if c0.behavior == SelectMenu then WithValue(c0, values[0]) else c0;
          if |c.commandID| < 2 || |c.commandID| > 3 then Rejected(ErrCIDWrongFormat)
          else
            match DomainRoute(c.commandID[0])
            case Some(h) => Invoke(h, V2(c))
            case None => Rejected(ErrCIDWrongFormat)
  }

  /** OnInteraction: only slash commands and component clicks are dispatched. */
  function OnInteraction(i: Interaction, parsed: Option<CIDV2>): Dispatch {
    match i.kind
    case ApplicationCommand =>
      (match SlashRoute(i.commandName)
       case Some(h) => Invoke(h, NoToken)
       case None => Ignored)
    case MessageComponent => OnMessageComponent(i.customID, i.values, parsed)
    case _ => Ignored
  }

  /** Any other interaction type does nothing. */
  lemma OtherTypesIgnored(i: Interaction, parsed: Option<CIDV2>)
    requires i.kind != ApplicationCommand && i.kind != MessageComponent
    ensures OnInteraction(i, parsed) == Ignored
  {
  }

  /**
   * A custom ID containing "|" takes the legacy path: the token parser's answer is never
   * looked at, and a command name outside the five is dropped without a response.
   */
  lemma {:induction false} LegacyPath(customID: string, values: seq<string>, p1: Option<CIDV2>, p2: Option<CIDV2>)
    requires '|' in customID
    ensures OnMessageComponent(customID, values, p1) == OnMessageComponent(customID, values, p2)
    ensures LegacyRoute(GoText.Split(customID, '|')[0]).None? ==> OnMessageComponent(customID, values, p1) == Ignored
    ensures !OnMessageComponent(customID, values, p1).Rejected?
  {
    GoText.SplitManyIffContains(customID, '|');
  }

  /** An unparsable token is ErrCIDWrongFormat and no handler runs. */
  lemma {:induction false} ParseFailure(customID: string, values: seq<string>)
    requires '|' !in customID
    ensures OnMessageComponent(customID, values, None) == Rejected(ErrCIDWrongFormat)
  {
    GoText.SplitManyIffContains(customID, '|');
  }

  /**
   * A V2 token routes to the handler of its commandID's first character when the commandID has
   * two or three characters; a SelectMenu token then carries the first selected value instead
   * of its own, and every other field unchanged.
   */
  lemma {:induction false} V2Routing(customID: string, values: seq<string>, c: CIDV2)
    requires '|' !in customID
    requires c.behavior == SelectMenu ==> |values| > 0
    ensures var d := OnMessageComponent(customID, values, Some(c));
      && (|c.commandID| < 2 || |c.commandID| > 3 ==> d == Rejected(ErrCIDWrongFormat))
      && (2 <= |c.commandID| <= 3 && DomainRoute(c.commandID[0]).None? ==> d == Rejected(ErrCIDWrongFormat))
      && (2 <= |c.commandID| <= 3 && DomainRoute(c.commandID[0]).Some? ==>
            && d.Invoke? && d.handler == DomainRoute(c.commandID[0]).value
            && d.token == V2(if c.behavior == SelectMenu then c.(value := values[0]) else c))
  {
    GoText.SplitManyIffContains(customID, '|');
  }

  /** A SelectMenu click with no selected value indexes an empty slice. */
  lemma {:induction false} EmptySelection(customID: string, c: CIDV2)
    requires '|' !in customID && c.behavior == SelectMenu
    ensures OnMessageComponent(customID, [], Some(c)) == Panicked
  {
    GoText.SplitManyIffContains(customID, '|');
  }

  /** Each domain tag reaches its own handler, and only the five tags reach any. */
  lemma DomainRouteExact(a: char, b: char)
    ensures DomainRoute(a).Some? <==> a in {'G', 'B', 'M', 'C', 'H'}
    ensures DomainRoute(a).Some? && DomainRoute(a) == DomainRoute(b) ==> a == b
  {
  }

  /** Different slash command names never share a handler. */
  lemma SlashRouteInjective(a: string, b: string)
    ensures SlashRoute(a).Some? && SlashRoute(a) == SlashRoute(b) ==> a == b
  {
  }

  /** Each legacy command name reaches the handler of the slash command of the same name. */
  lemma LegacyAgreesWithSlash(name: string)
    ensures LegacyRoute(name).Some? ==> LegacyRoute(name) == SlashRoute(name)
  {
  }
}
