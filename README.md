# kurohelper navigation core, in Dafny

kurohelper is a Discord bot that looks up visual novels, brands, creators, songs and
characters in the vndb, erogamescape (erogs) and Bangumi databases and answers with
"Components V2" messages. This project models the part of the bot that turns an interaction
into a reply and keeps a result browsable:

- **Dispatch** (`bot/interaction.go`): a slash command is routed by its name. A component click
  is routed by its custom ID. A legacy ID with fields separated by `|` is routed by its first
  field. A navigation token (CIDV2) is routed by the first character of its command ID.
- **Navigator** (`navigator/*.go`): the three generic flows over a result store and the session
  index (`CIDStore`, from a session handle to a content key):
  - SearchList: the keyword's content key, a cache hit or a deferred search, then page 1;
  - ChangePage: another page of a live session;
  - BackToHome: page 1 of the session a back button names.
- **Handlers**: the per-domain routing, page builders and detail flows of the brand, creator,
  music and character searches.
- **utils/shared.go**: the page window `Pagination`/`PaginationR` and the image allow-list
  policy `GenerateImage`.

Model design:

- Every store (`CacheStore`) and the session index (`SessionIndex`) is a Dafny class whose
  entries are a `map`. Everything sent to Discord is appended to a `Transcript`.
- Each handler is a method over those objects. Its `ensures` equates the new stores and the
  transcript with a specification function over their old values. The lemmas state the
  handler's properties about that function: what is answered, on which channel, in which
  order, what is written and what is fetched.
- Each page builder is a pure view function with a loop method proved equal to it. Lemmas
  place every result on the page its position says and tie each menu entry or button to the
  flow it opens.
- A Go panic (an index out of range or a negative slice bound) is an explicit outcome
  (`Panics`), delivered as a `Crash` event.
- Calls into code outside the core are parameters of the model:
  - database and web clients;
  - the uuid generator (the session handle);
  - `utils.GetOptions`, `ParseCIDV2`, `GetUserID`;
  - the vndb role-priority table;
  - the user's played and wish-list records.
- The content key is unpadded base64url of the keyword's bytes (section 5 of RFC 4648, with
  the padding of section 3.2 left off). It is modelled with its decoder, so equal keys mean
  equal keywords.

## Model

| member | source | states |
|---|---|---|
| Dispatch.OtherTypesIgnored | bot/interaction.go:17-24 | an interaction that is neither a slash command nor a component click is ignored |
| Dispatch.LegacyPath | bot/interaction.go:61-77 | a custom ID containing "\|" takes the legacy path: the token parser is never consulted, an unknown command name is dropped without a reply, and it is never rejected as a bad token |
| Dispatch.ParseFailure | bot/interaction.go:79-83 | an unparsable token is answered with ErrCIDWrongFormat and reaches no handler |
| Dispatch.V2Routing | bot/interaction.go:84-110 | a token reaches the handler of its command ID's first character only when that command ID has 2 or 3 characters, otherwise ErrCIDWrongFormat; a select-menu token carries the first chosen value and every other field unchanged |
| Dispatch.EmptySelection | bot/interaction.go:86-88 | a select-menu click with no chosen value panics |
| Dispatch.DomainRouteExact | bot/interaction.go:96-110 | exactly the tags G, B, M, C, H reach a handler, each its own |
| Dispatch.SlashRouteInjective | bot/interaction.go:27-58 | two slash command names never share a handler |
| Dispatch.LegacyAgreesWithSlash | bot/interaction.go:64-77 | each legacy command name reaches the same handler as the slash command of that name |
| Navigator.Resolve | navigator/change_page.go:30-40 | the two-stage lookup: ErrCacheLost unless the handle is indexed and its key is stored, else exactly the stored value |
| Navigator.SearchList | navigator/search_list.go:22-84 | the stores and the transcript after the call are exactly those of the search specification |
| Navigator.ChangePage | navigator/change_page.go:18-49 | the stores are unchanged and the transcript gains exactly the page-change specification's actions |
| Navigator.BackToHome | navigator/back_to_home.go:19-51 | the stores are unchanged and the transcript gains exactly the back-to-home specification's actions |
| Navigator.KeywordMissing | navigator/search_list.go:30-34 | a missing keyword is reported at once on the immediate reply; nothing is stored or searched |
| Navigator.SearchHit | navigator/search_list.go:42-55 | on a hit the new handle is indexed to the content key, the result store is untouched, no deferred acknowledgment is sent, and page 1 of the cached value is the immediate reply |
| Navigator.SearchMissAcksFirst | navigator/search_list.go:57-65 | on a miss the deferred acknowledgment is the first action, before the searcher runs |
| Navigator.SearchFailure | navigator/search_list.go:65-69 | a failed search leaves both stores unchanged and is reported on the webhook edit |
| Navigator.SearchSuccess | navigator/search_list.go:71-83 | a successful search stores the result under the content key, indexes the handle to it, changes no other key of either store, and renders page 1 for the handle |
| Navigator.MissThenHit | navigator/search_list.go:42-83 | after a successful search the new handle resolves to exactly the fetched result |
| Navigator.IdempotentSearch | navigator/search_list.go:39-55 | once a keyword's result is stored, searching an equal keyword again never calls the searcher and renders the stored result |
| Navigator.SameKeySameKeyword | navigator/search_list.go:39 | two keywords share a content key if and only if they are the same keyword |
| Navigator.ChangePageShape | navigator/change_page.go:25-48 | the deferred acknowledgment comes first, exactly one answer follows, and neither store changes |
| Navigator.ChangePageExpired | navigator/change_page.go:30-40 | an unknown handle or an evicted result is ErrCacheLost on the edit path, and the builder plays no part |
| Navigator.ChangePageRenders | navigator/change_page.go:42-48 | with a live session the builder gets the cached value, the token's page number unclamped and the token's handle; its output is the webhook edit |
| Navigator.BackToHomeWrongBehavior | navigator/back_to_home.go:26-29 | a token of another behavior is refused before any lookup, whatever the stores hold |
| Navigator.BackToHomeIgnoresValue | navigator/back_to_home.go:31-50 | no store changes, and the answer does not depend on the token's value |
| Navigator.BackToHomeRenders | navigator/back_to_home.go:33-50 | with a live session the builder gets page 1 and the token's own handle; otherwise ErrCacheLost without a build |
| Base64Url.DecodeEncode | navigator/search_list.go:39 | decoding the unpadded base64url encoding of a byte string gives the bytes back |
| Base64Url.EncodeSyms | navigator/search_list.go:39 | the encoding uses only the 64 URL-safe symbols |
| Base64Url.QuadRoundTrip | navigator/search_list.go:39 | a full group of three bytes decodes back from its four symbols |
| Base64Url.TripleRoundTrip | navigator/search_list.go:39 | a trailing pair of bytes decodes back from its three symbols |
| Base64Url.PairRoundTrip | navigator/search_list.go:39 | a trailing single byte decodes back from its two symbols |
| Base64Url.ContentKeyInjective | navigator/search_list.go:39 | equal content keys come exactly from equal keywords |
| Cache.Get | navigator/change_page.go:36-40 | a stored key gives exactly the value stored under it; any other key gives ErrCacheLost |
| Cache.GetAfterSet | navigator/search_list.go:72-75 | reading the key just written gives exactly the written value |
| Cache.GetOtherKey | navigator/search_list.go:72-75 | writing one key changes no lookup of another key |
| Cache.CacheStore.constructor | navigator/search_list.go:25 | a new store is empty |
| Cache.CacheStore.Set | navigator/search_list.go:72 | the store maps the key to the value; every other entry is unchanged |
| Cache.SessionIndex.constructor | navigator/search_list.go:45 | a new session index is empty |
| Cache.SessionIndex.Set | navigator/search_list.go:75 | the index maps the handle to the key; every other handle is unchanged |
| Transport.Deliver | navigator/search_list.go:48-53 | a built page goes out on the success channel, a builder error on the error channel, and a panic is a crash |
| Transport.Transcript.constructor | navigator/search_list.go:59-61 | a new transcript is empty |
| Transport.Transcript.Emit | navigator/search_list.go:59-61 | the transcript gains exactly the one action |
| Cid.ToPage | handlers/search_creator.go:114-118 | only a Page token has a page view; its value must parse as a decimal integer, and the handle passes through unchanged |
| Cid.WithValue | bot/interaction.go:86-88 | the same token with only its value replaced |
| Paging.PageCount | handlers/searchcmd/search_brand.go:105 | the least page count whose pages hold all n items |
| Paging.FlooredPageCount | handlers/search_creator.go:234-237 | the page count with a floor of one page |
| Paging.PageItems | handlers/search_creator.go:239-241 | the items of the page when its bounds are inside the list, otherwise None (the slice panics) |
| Paging.TotalPages | handlers/searchcmd/search_brand.go:105 | the rounded-up division of the builders equals the page count |
| Paging.Window | handlers/searchcmd/search_brand.go:116-118 | the start index and slice of a page, as the page-items function gives them |
| Paging.StartNonNegative | handlers/search_creator.go:239 | with a positive page size the window starts inside the list exactly from page 1 on |
| Paging.PagesInRange | handlers/search_creator.go:234-241 | every page from 1 to the floored page count is built without a panic |
| Paging.EmptyListOnePage | handlers/search_creator.go:235-237 | no results still make one page, and its page 1 is valid and empty |
| Paging.ExactPages | handlers/search_creator.go:234 | a list of exactly k full pages has k pages, with no trailing empty page |
| Paging.ItemPlacement | handlers/search_creator.go:239-241 | item i is at position i % per of page i / per + 1 and is numbered i + 1 |
| Paging.PageWithin | handlers/search_creator.go:234 | the page of every item is one of the counted pages |
| Paging.TwentyThreeItems | handlers/search_character.go:77-85 | 23 results at 10 per page make three pages, and the last holds items 21 to 23 |
| Shared.PaginationR | utils/shared.go:51-68 | a negative page in cache mode panics; otherwise at most ten items from the window start, in order, with a flag saying whether items follow |
| Shared.PaginationRIsSlice | utils/shared.go:51-68 | the window is a contiguous, order-preserving piece of the input of at most ten items |
| Shared.PaginationRPastEnd | utils/shared.go:64-66 | a page past the end in cache mode gives an empty window with nothing after it |
| Shared.SliceRef.constructor | utils/shared.go:28 | the slice pointer holds the given slice |
| Shared.Pagination | utils/shared.go:28-48 | the slice written back through the pointer and the flag are PaginationR's, for every call that does not panic |
| Shared.GenerateImage | utils/shared.go:71-90 | the image is shown only to an allow-listed guild or, in a direct message, to an allow-listed user; its URL is unchanged |
| Shared.GenerateImageContext | utils/shared.go:73-88 | in a guild the user's own listing does not matter, and in a direct message the guild's does not |
| Views.ThumbFromUrl | handlers/searchcmd/search_brand.go:403-406 | the placeholder exactly when the URL is blank, otherwise the URL as it is, untrimmed; the vndb list row's thumbnail at lines 132-157 follows the same rule |
| Views.ThumbFromDmm | handlers/search_creator.go:282-288 | the DMM cover exactly when the code is not blank, otherwise the placeholder |
| Views.GatedThumb | handlers/search_character.go:320-335 | the trimmed picture URL only when it is not blank and the allow-list policy lets the caller see it, otherwise the placeholder |
| ErogsIds.MenuId | handlers/search_creator.go:368 | the menu id is "e" followed by the decimal id |
| ErogsIds.NormaliseMenuId | handlers/search_creator.go:192-194 | an id the bot hands out reads back as the same id |
| ErogsIds.NormaliseOtherForms | handlers/search_creator.go:192-194 | the "E" form and a bare number are accepted too |
| ErogsIds.StripsOnce | handlers/search_creator.go:192-193 | each prefix is stripped at most once, so "EE1" and "ee1" are not numbers |
| Sorting.SortBy | handlers/search_creator.go:229-231 | sort.Slice's result: sorted by the order and a permutation of the input |
| Sorting.InsertSorted | handlers/search_creator.go:229-231 | inserting into a sorted sequence keeps it sorted |
| Sorting.InsertPermutes | handlers/search_creator.go:229-231 | inserting adds exactly the one element |
| GoText.TrimLeftSpaceSpec | handlers/search_character.go:134 | the leading white space is dropped, up to the first other character |
| GoText.TrimRightSpaceSpec | handlers/search_character.go:134 | the trailing white space is dropped, back to the last other character |
| GoText.TrimSpaceEmptyIffBlank | handlers/searchcmd/search_brand.go:237 | trimming gives "" exactly when every character is white space |
| GoText.TrimPrefixSpec | handlers/search_creator.go:192 | the prefix is removed once when the string starts with it, otherwise the string is unchanged |
| GoText.Split | handlers/searchcmd/search_music.go:117-121 | splitting always gives at least one piece, even for the empty string |
| GoText.JoinSplit | handlers/searchcmd/search_music.go:117-121 | joining the pieces with the separator gives the string back |
| GoText.SplitPiecesFree | handlers/searchcmd/search_music.go:117-121 | no piece holds the separator |
| GoText.SplitManyIffContains | bot/interaction.go:64 | there is more than one piece exactly when the separator occurs |
| GoText.SplitFirstEmpty | handlers/searchcmd/search_music.go:148 | the first piece is empty exactly when the string is empty or starts with the separator |
| GoText.Quo | handlers/searchcmd/search_brand.go:129 | Go's integer division, which truncates toward zero: the remainder has the sign of the dividend and is smaller than the divisor in absolute value |
| GoText.Itoa | handlers/search_creator.go:304 | strconv.Itoa is never empty and starts with a minus sign exactly for a negative number, otherwise with a digit |
| GoText.ParseUintDigits | handlers/search_creator.go:194 | a digit string parses to its decimal value when that fits in 64 bits, and gives the range error exactly when it does not |
| GoText.AtoiItoa | handlers/search_creator.go:194 | Atoi reads every Go int back from its decimal text |
| GoText.AtoiRejectsNonDigit | handlers/search_creator.go:194 | a character that is neither a digit nor the leading sign makes Atoi fail |
| GoText.AtoiAcceptsDigits | handlers/search_creator.go:194 | Atoi succeeds only on a non-empty string made of an optional sign and at least one digit after it |
| GoText.ParseUintAcceptsDigits | handlers/search_creator.go:194 | the digit loop succeeds only on a string of decimal digits |
| GoText.StrNotLessPreorder | handlers/searchcmd/search_brand.go:306-308 | "not less" on strings is total and transitive, so it can order sort.Slice |
| SearchCreator.BuildListComponents | handlers/search_creator.go:329-387 | the loop builds exactly the list view: a nil list is an error, and an in-range page has one row and button per creator |
| SearchCreator.MedianOrder | handlers/search_creator.go:229-231 | "higher median first" is a total preorder |
| SearchCreator.SortedGames | handlers/search_creator.go:229-231 | the games sorted by median, highest first, with none lost or added |
| SearchCreator.CountRoles | handlers/search_creator.go:252-255 | the loop counts exactly the credits of all games |
| SearchCreator.RoleLabels | handlers/search_creator.go:270-277 | one label per credit: the role name for a code other than 7, the credit's own name for 7 |
| SearchCreator.DetailRow | handlers/search_creator.go:279-305 | one game's section and menu item |
| SearchCreator.DetailRows | handlers/search_creator.go:268-306 | row k is game k of the page, numbered after the page's start; item k is its menu entry |
| SearchCreator.BuildDetailComponents | handlers/search_creator.go:224-326 | the method builds exactly the detail view of the creator's games by rating |
| SearchCreator.PageFlow | handlers/search_creator.go:108-171 | list paging and detail paging are the same flow over different stores; the transcript gains exactly its actions |
| SearchCreator.LoadCreator | handlers/search_creator.go:188-209 | a cached creator is returned untouched; a miss normalises the id, reports a bad id, fetches once, reports a failed fetch and stores a fetched creator under the key |
| SearchCreator.OpenCreatorDetail | handlers/search_creator.go:174-221 | the new stores and transcript are exactly the detail specification's: loading edit, store or fetch by id, a fresh session, page 1 |
| SearchCreator.SearchCreatorV2 | handlers/search_creator.go:33-105 | the new stores and transcript are exactly those of the routed handler's specification |
| SearchCreator.HandleComponent | handlers/search_creator.go:36-59 | a token is acknowledged first, then the stores and transcript follow the route's specification |
| SearchCreator.RouteCreator | handlers/search_creator.go:40-58 | the stores and transcript after the routed work are exactly the route specification's |
| SearchCreator.ListShowsEveryMatch | handlers/search_creator.go:347-370 | creator i is row i % 10 of page i / 10 + 1, numbered i + 1, on a counted page |
| SearchCreator.ListRowAt | handlers/search_creator.go:347-368 | row k of a list page is built from the match at position start + k of the results |
| SearchCreator.ListRowOpensDetail | handlers/search_creator.go:360-368 | each row's button carries the list's session, routes to the detail flow, and has an id that flow reads back as the creator's |
| SearchCreator.ClickFetchesCreator | handlers/search_creator.go:174-204 | pressing a row's button for a creator not cached fetches exactly that creator, after the loading edit |
| SearchCreator.ListNil | handlers/search_creator.go:330-332 | a nil list is an error on every page, never a panic or a page |
| SearchCreator.RoleCountAppend | handlers/search_creator.go:252-255 | the credit count of two lists of games is the sum of their counts |
| SearchCreator.RoleCountPermutation | handlers/search_creator.go:229-255 | the credit count does not depend on the order of the games |
| SearchCreator.DetailWindow | handlers/search_creator.go:228-241 | a built detail page is the window of the rating order selected by its page number |
| SearchCreator.DetailBuilt | handlers/search_creator.go:239-306 | a page whose window exists is built, with one row per game in it |
| SearchCreator.DetailRowAt | handlers/search_creator.go:269-280 | row k of a detail page is the game at that position of the rating order |
| SearchCreator.DetailOrdered | handlers/search_creator.go:229-241 | across the whole session an earlier row never has a lower median than a later one |
| SearchCreator.DetailShowsEveryGame | handlers/search_creator.go:228-241 | every game of the creator appears on some counted page |
| SearchCreator.GamePosition | handlers/search_creator.go:228-241 | each game has a page within the page count and a row on it where the rating order places it |
| SearchCreator.DetailRoleCount | handlers/search_creator.go:251-256 | the header counts every credit of every game, whichever page is shown |
| SearchCreator.DetailControls | handlers/search_creator.go:309-318 | the page controls appear exactly when there are more than 7 games and lead to this session's detail paging; the menu routes to game selection |
| SearchCreator.RoutePrecedence | handlers/search_creator.go:41-58 | the order of the switch decides the overlapping cases |
| SearchCreator.ComponentAcksFirst | handlers/search_creator.go:37-39 | every token is acknowledged first and answered after; a select menu other than the game menu is refused |
| SearchCreator.OnlyDetailWrites | handlers/search_creator.go:41-58 | only the detail flow can change a store when a token is pressed |
| SearchCreator.OpenDetailBadId | handlers/search_creator.go:188-198 | a key that is neither cached nor a number is reported, with no fetch and no new session |
| SearchCreator.OpenDetailMiss | handlers/search_creator.go:188-199 | a key that is not cached but is a number is fetched by that number, after the loading edit |
| SearchCreator.OpenDetailCached | handlers/search_creator.go:188-215 | a cached creator is shown without a fetch; only the new session is recorded |
| SearchCreator.OpenDetailFetched | handlers/search_creator.go:199-215 | a fetched creator is stored under the token's key, the new session points at it, and page 1 is built for that session |
| SearchCreator.DetailPagingAfterOpen | handlers/search_creator.go:211-215 | after a creator is opened, the new session pages through that creator's games, whatever the list's session holds |
| SearchCreator.OpenedSession | handlers/search_creator.go:204-220 | once a creator's page is sent, the creator is stored and the new session resolves to it |
| SearchCreator.DetailPageRoute | handlers/search_creator.go:46-48 | a detail page token renders that page of its session's creator |
| SearchCharacter.MainTitle | handlers/search_character.go:110-116 | the title of the first appearance marked main, else the VN's own title |
| SearchCharacter.FindMainTitle | handlers/search_character.go:110-116 | the loop with its early break gives exactly that title |
| SearchCharacter.RankOrderTotal | handlers/search_character.go:102-104 | "lower role priority first" is a total preorder |
| SearchCharacter.SortedVns | handlers/search_character.go:102-104 | the appearances sorted by role priority, with none lost or added |
| SearchCharacter.BuildVnParts | handlers/search_character.go:105-118 | the loop keeps exactly the first two appearances by priority |
| SearchCharacter.BuildListRow | handlers/search_character.go:97-146 | one list row: name, appearances, thumbnail |
| SearchCharacter.BuildListRows | handlers/search_character.go:97-149 | row k is character k of the page, numbered after the page's start |
| SearchCharacter.BuildListMenu | handlers/search_character.go:148 | menu entry k names character k by its shown name and id |
| SearchCharacter.BuildListComponents | handlers/search_character.go:76-169 | the method builds exactly the list view |
| SearchCharacter.BuildVnLines | handlers/search_character.go:275-296 | the loop builds exactly the "appears in" lines |
| SearchCharacter.BuildDetail | handlers/search_character.go:216-358 | the method builds exactly the detail view |
| SearchCharacter.SelectCharacter | handlers/search_character.go:181-361 | the character store and transcript after the call are exactly the selection specification's |
| SearchCharacter.SearchBangumi | handlers/search_character.go:364-490 | the Bangumi store and transcript after the call are exactly the Bangumi specification's |
| SearchCharacter.SearchCharacterV2 | handlers/search_character.go:31-73 | every store and the transcript after the call are exactly the routed specification's |
| SearchCharacter.SlashCharacter | handlers/search_character.go:32-46 | the list, Bangumi and session stores and the transcript after a slash command are exactly the slash specification's; the character store is untouched |
| SearchCharacter.HandleComponent | handlers/search_character.go:47-61 | a token changes only the character store and the transcript, exactly as the token specification says |
| SearchCharacter.ListShowsEveryCharacter | handlers/search_character.go:83-149 | character i is row and menu entry i % 10 of page i / 10 + 1, numbered i + 1, on a counted page |
| SearchCharacter.ChoiceNamesCharacter | handlers/search_character.go:148-158 | choosing entry k sends the selection flow the id of the character on row k, with the list's own session |
| SearchCharacter.ChoiceFetchesCharacter | handlers/search_character.go:189-209 | after the acknowledgment and the loading edit, a chosen character not stored is fetched by exactly its id; a stored one is not fetched |
| SearchCharacter.VnPartsBest | handlers/search_character.go:102-118 | a row shows the best two appearances by priority, each by its main title and role |
| SearchCharacter.LinesOfAppend | handlers/search_character.go:282-295 | the lines of two lists of appearances are their lines one after the other |
| SearchCharacter.LinesOfPermutation | handlers/search_character.go:279-295 | reordering the appearances reorders their lines and loses none |
| SearchCharacter.VnLinesEveryAppearance | handlers/search_character.go:275-296 | the "none" line for no appearance, otherwise one line per appearance, hidden exactly for a spoiler, in priority order |
| SearchCharacter.VnLineHidden | handlers/search_character.go:290-294 | a line is hidden exactly when its appearance is a spoiler |
| SearchCharacter.ItoaNotUnrecorded | handlers/search_character.go:228-233 | no decimal number begins like the "unrecorded" text |
| SearchCharacter.MeasureText | handlers/search_character.go:228-233 | a measurement is "unrecorded" exactly when vndb gives 0, otherwise its number reads back |
| SearchCharacter.DetailFallbacks | handlers/search_character.go:217-274 | each fixed fallback text appears exactly when vndb has no value, and the back button leads to the list session |
| SearchCharacter.DuoCases | handlers/search_character.go:243-256 | a code pair is "unrecorded" when both are empty, shown once when they agree, else with the second behind a spoiler |
| SearchCharacter.SelectKeepsSession | handlers/search_character.go:200-214 | a selection leaves the lists, sessions and Bangumi store alone and writes at most the selected id of the character store |
| SearchCharacter.SelectShowsChoice | handlers/search_character.go:200-214 | a delivered page is the detail view of the selected character as stored after the selection, in the token's session |
| SearchCharacter.SelectMiss | handlers/search_character.go:200-209 | a miss asks vndb once; a failed fetch changes nothing and is reported |
| SearchCharacter.BackReturnsToList | handlers/search_character.go:57-58 | a detail page's back button renders page 1 of its list session under the same handle, or reports the lost session |
| SearchCharacter.SelectThenBack | handlers/search_character.go:181-361 | after a selection the back button brings back page 1 of the same list |
| SearchCharacter.BangumiAnswersOnce | handlers/search_character.go:364-490 | Bangumi answers exactly once on the immediate reply, with no deferred acknowledgment, and changes only the Bangumi store |
| SearchCharacter.BangumiLookup | handlers/search_character.go:372-386 | a stored character is answered without a search; a miss searches once and stores a successful answer under the content key |
| SearchCharacter.BangumiMissThenHit | handlers/search_character.go:372-386 | asking again for the same keyword after a successful search answers from the store |
| SearchCharacter.HeightWeightText | handlers/search_character.go:408-411 | height and weight are "unrecorded" together exactly when Bangumi gives neither |
| SearchCharacter.Routing | handlers/search_character.go:31-62 | an option translation failure takes the legacy error path untouched; a command ID shorter than two characters panics; a token never changes the list store, the sessions or the Bangumi store |
| SearchBrand.BuildVndbRows | handlers/searchcmd/search_brand.go:123-164 | row k and menu entry k are game k of the page, numbered after the page's start, with its display title, rating, hours, vote count and thumbnail |
| SearchBrand.BuildVndbList | handlers/searchcmd/search_brand.go:102-188 | the method builds exactly the vndb list view, each row carrying its game's rating |
| SearchBrand.BuildErogsRows | handlers/searchcmd/search_brand.go:533-569 | row k and menu entry k are game k of the page, marked from the played and wish sets |
| SearchBrand.BuildErogsList | handlers/searchcmd/search_brand.go:489-593 | the method builds exactly the erogs list view |
| SearchBrand.CollectIds | handlers/searchcmd/search_brand.go:476-478 | the set holds exactly the listed ids |
| SearchBrand.PlayWishMaps | handlers/searchcmd/search_brand.go:462-487 | the played and wish sets are exactly those the user's records give |
| SearchBrand.MainAliasNameDefault | handlers/searchcmd/search_brand.go:259-265 | with no main alias the credited name is the default (original name, else name) |
| SearchBrand.MainAliasNameLastMain | handlers/searchcmd/search_brand.go:259-265 | with a main alias the credited name is that of the last main alias |
| SearchBrand.OtherAliasesContents | handlers/searchcmd/search_brand.go:258-265 | empty exactly when every alias is main; every non-main alias name is in it, and every entry is one |
| SearchBrand.OtherAliasesAppend | handlers/searchcmd/search_brand.go:258-265 | the names of a concatenation are those of each part in turn, so the list keeps the aliases' order |
| SearchBrand.CreditLine | handlers/searchcmd/search_brand.go:274-278 | a credit line is never empty |
| SearchBrand.StaffEntry | handlers/searchcmd/search_brand.go:253-270 | one pass gives the member's shown name; `tmpAlias` becomes the member's own alias text when the member has aliases and is carried over unchanged otherwise |
| SearchBrand.BuildCredits | handlers/searchcmd/search_brand.go:252-280 | the loop builds the staff blocks as the code does, `tmpAlias` carried from one member to the next |
| SearchBrand.InsertionOrderKeys | handlers/searchcmd/search_brand.go:284-305 | the character ids are listed once each, exactly the keys of the map |
| SearchBrand.RoleOrderTotal | handlers/searchcmd/search_brand.go:306-308 | "role code not greater" is a total preorder |
| SearchBrand.FindRole | handlers/searchcmd/search_brand.go:290-297 | the loop with its early break gives the role of the first appearance in this VN |
| SearchBrand.BuildCharacterList | handlers/searchcmd/search_brand.go:284-308 | the loops build exactly the character list |
| SearchBrand.LastMainTitleNone | handlers/searchcmd/search_brand.go:319-324 | a related game with no main title is shown with the empty title |
| SearchBrand.LastMainTitleLast | handlers/searchcmd/search_brand.go:319-324 | otherwise it is shown with the last title marked main |
| SearchBrand.FindLastMainTitle | handlers/searchcmd/search_brand.go:319-324 | the title loop's result is the last main title of the relation |
| SearchBrand.BuildRelations | handlers/searchcmd/search_brand.go:317-330 | the nested loops build exactly the related-games line |
| SearchBrand.BuildGame | handlers/searchcmd/search_brand.go:236-431 | the method builds exactly the game page, its evaluation line (average, Bayesian rating, votes) and play-time line included, its staff blocks as the loop writes them with the carried alias, or the panic of the missing result or developer |
| SearchBrand.SelectGame | handlers/searchcmd/search_brand.go:190-432 | the game store and transcript after the call are exactly the selection specification's |
| SearchBrand.SearchBrandV2 | handlers/searchcmd/search_brand.go:38-89 | every store and the transcript after the call are exactly the routed specification's |
| SearchBrand.SlashBrand | handlers/searchcmd/search_brand.go:39-59 | the lists, sessions and transcript after a slash command are exactly the slash specification's |
| SearchBrand.HandleComponent | handlers/searchcmd/search_brand.go:60-88 | the stores and transcript after a token are exactly the token specification's, acknowledgment included |
| SearchBrand.VndbListShowsEveryGame | handlers/searchcmd/search_brand.go:102-164 | game i is row and menu entry i % 7 of page i / 7 + 1, numbered i + 1, with the game's id, on a counted page, and that row shows the game's rating; the header names the first producer |
| SearchBrand.VndbListEdges | handlers/searchcmd/search_brand.go:103-118 | no producer found panics on every page; a producer with no games has zero pages and an empty first page |
| SearchBrand.ErogsListShowsEveryGame | handlers/searchcmd/search_brand.go:526-568 | every erogs game is on the page its position says, with its marks, and its menu id reads back as the game's erogs id |
| SearchBrand.ErogsHeader | handlers/searchcmd/search_brand.go:500-515 | the brand name, marked when dissolved, then the site and the Twitter account, each present exactly when not blank |
| SearchBrand.MarksFromRecords | handlers/searchcmd/search_brand.go:462-487 | the played mark exactly when the user is known and the played query lists the game; the wish mark exactly when, in addition, the wish query lists it; a not-found answer counts as empty |
| SearchBrand.SelectKeepsSession | handlers/searchcmd/search_brand.go:190-233 | a selection writes at most the game store, under the selected id, and only a miss fetches, by exactly that id; nothing happens unless the list session exists |
| SearchBrand.EmptyAnswerPanicsAgain | handlers/searchcmd/search_brand.go:220-240 | an empty vndb answer is stored before it is read, so the page panics and every later choice of that id panics again from the store |
| SearchBrand.BackReturnsToList | handlers/searchcmd/search_brand.go:70-71 | a game page's back button renders page 1 of its vndb list session under the same handle, or reports the lost session |
| SearchBrand.SelectThenBack | handlers/searchcmd/search_brand.go:190-432 | after a selection the back button brings back page 1 of the same list |
| SearchBrand.BlankPrefix | handlers/searchcmd/search_brand.go:241-242 | a non-blank string stays non-blank with text appended |
| SearchBrand.GamePage | handlers/searchcmd/search_brand.go:236-421 | the alternative title unless blank; the brand as "original(name)" or the name, and no brand line when blank; a staff block of the page as built (carried alias included) absent when nobody has its role; the average, rating and vote count of the evaluation line and the hours and length votes of the play-time line; a back button to the list |
| SearchBrand.AddCreditEmpty | handlers/searchcmd/search_brand.go:272-279 | adding a non-empty line leaves a block empty exactly when the line is of another role |
| SearchBrand.GamePageOwnAliases | handlers/searchcmd/search_brand.go:251-280 | when every staff member has aliases nothing is carried, and the page's staff blocks are the per-member credits |
| SearchBrand.BlockEmpty | handlers/searchcmd/search_brand.go:252-280 | a block the loop as written builds is empty exactly when nobody on the staff has its role |
| SearchBrand.CreditsRoles | handlers/searchcmd/search_brand.go:362-375 | the scenario, art and songs blocks the loop as written builds are each empty exactly when nobody has that role |
| SearchBrand.CreditsAppend | handlers/searchcmd/search_brand.go:252-280 | with per-member aliases, the blocks of a staff list are the blocks of its parts, one after the other |
| SearchBrand.CreditOne | handlers/searchcmd/search_brand.go:253-279 | one member is credited in the block of that member's role under that member's own aliases, and the alias text is empty exactly when all aliases are main |
| SearchBrand.AsWrittenWhenAliased | handlers/searchcmd/search_brand.go:252-280 | the loop as written agrees with the per-member credits whenever every member has an alias |
| SearchBrand.CarriedAliasShown | handlers/searchcmd/search_brand.go:251-280 | as written, an artist with no aliases after a writer with alias "W" is shown as "Artist (W)"; the corrected credit is "Artist " |
| SearchBrand.RoleInFirst | handlers/searchcmd/search_brand.go:290-297 | the role in this VN is that of the first appearance in it, if any |
| SearchBrand.CharacterMapKeys | handlers/searchcmd/search_brand.go:284-299 | a character is in the map exactly when its id appears in this VN somewhere in the list |
| SearchBrand.CharacterMapLastWins | handlers/searchcmd/search_brand.go:285-298 | each entry comes from the last appearance of its id: original name, else name, with that appearance's role |
| SearchBrand.MapValuesContents | handlers/searchcmd/search_brand.go:302-305 | listing the map's values by its keys gives exactly its entries |
| SearchBrand.CharacterListContents | handlers/searchcmd/search_brand.go:302-308 | the list holds the map's entries, one per character id, ordered by role code |
| SearchBrand.RelationsNone | handlers/searchcmd/search_brand.go:327-330 | the related-games line says "none" exactly when vndb lists no related game |
| SearchBrand.CoverPolicy | handlers/searchcmd/search_brand.go:332-351 | a cover rated sexual or violent at 1 or more is never shown; any other is shown, unchanged, exactly when its URL is not blank and the allow-list policy lets the caller see it |
| SearchBrand.SlashRouting | handlers/searchcmd/search_brand.go:39-59 | an option translation failure takes the legacy error path and changes nothing; option "1" searches vndb and touches no erogs store; anything else searches erogs and touches no vndb store |
| SearchBrand.TokenRouting | handlers/searchcmd/search_brand.go:60-88 | a command ID shorter than two characters panics; an erogs selection is acknowledged and handed to the game search; a token never changes the list stores or the sessions |
| SearchMusic.Music.constructor | handlers/searchcmd/search_music.go:101 | the new record holds exactly the given data |
| SearchMusic.Music.ReplaceSentinels | handlers/searchcmd/search_music.go:109-115 | the record is updated in place to its cleaned data |
| SearchMusic.CleanedRules | handlers/searchcmd/search_music.go:109-115 | cleaning changes only the two fields, leaves no sentinel, replaces each sentinel by "unrecorded", and a second cleaning changes nothing |
| SearchMusic.BuildDetail | handlers/searchcmd/search_music.go:117-196 | the loop builds exactly the detail view |
| SearchMusic.CollectNames | handlers/searchcmd/search_music.go:237-243 | the loop collects exactly the game names that are not blank |
| SearchMusic.BuildRow | handlers/searchcmd/search_music.go:228-274 | one song's row and menu item |
| SearchMusic.BuildRows | handlers/searchcmd/search_music.go:227-275 | row k and menu entry k are song k of the page, numbered after the page's start |
| SearchMusic.BuildList | handlers/searchcmd/search_music.go:207-299 | the method builds exactly the list view |
| SearchMusic.SelectMusic | handlers/searchcmd/search_music.go:64-204 | the song store, the selected record and the transcript after the call are exactly the selection specification's; no other record may change |
| SearchMusic.OpenSong | handlers/searchcmd/search_music.go:70-204 | loading edit, then the lookup, then the cleaned detail page of the selected song; an unloaded song sends no page |
| SearchMusic.LoadMusic | handlers/searchcmd/search_music.go:82-107 | a cached song is returned as stored; a miss normalises the id, reports a bad id, fetches once, reports a failed fetch and stores a fresh record for a fetched song |
| SearchMusic.ShowSong | handlers/searchcmd/search_music.go:109-204 | the record is cleaned once and its detail page is sent as the edit |
| SearchMusic.SelectComponent | handlers/searchcmd/search_music.go:40-44 | a selection is acknowledged before the selection flow runs |
| SearchMusic.ListToken | handlers/searchcmd/search_music.go:37-61 | a page token pages the list or reports a bad page, a back token returns to page 1, any other behavior is a mismatch |
| SearchMusic.HandleComponent | handlers/searchcmd/search_music.go:36-50 | the stores and transcript after a token are exactly the token specification's |
| SearchMusic.SearchMusicV2 | handlers/searchcmd/search_music.go:27-51 | every store, the records and the transcript after the call are exactly the routed specification's |
| SearchMusic.ListShowsEverySong | handlers/searchcmd/search_music.go:219-274 | song i is row and menu entry i % perPage of page i / perPage + 1, numbered i + 1, on a counted page; its menu id reads back as the song's erogs id |
| SearchMusic.ListEdges | handlers/searchcmd/search_music.go:208-222 | nothing found gives zero pages and an empty first page; a page before the first panics |
| SearchMusic.GameNamesSpec | handlers/searchcmd/search_music.go:237-253 | the game names of a row are exactly its non-blank names, in order |
| SearchMusic.SectionRule | handlers/searchcmd/search_music.go:147-172 | a credit section is absent exactly when the text is empty or starts with a comma; otherwise it holds the comma-free pieces that make up the text |
| SearchMusic.FirstDmmSpec | handlers/searchcmd/search_music.go:124-134 | the cover is that of the first game with a non-blank DMM code, or the placeholder when none has one |
| SearchMusic.SelectedPage | handlers/searchcmd/search_music.go:109-196 | a delivered page shows no sentinel, lists every game the song is used in, and its back button names the list's session |
| SearchMusic.ChosenEntry | handlers/searchcmd/search_music.go:224-278 | menu entry k of a list page is a selection token for the list's session carrying the id of result start + k |
| SearchMusic.SelectFetchesId | handlers/searchcmd/search_music.go:82-95 | a selection of an uncached song id is acknowledged, shows the loading edit and fetches exactly that id |
| SearchMusic.ChoiceFetchesSong | handlers/searchcmd/search_music.go:40-101 | choosing entry k of a list page fetches exactly that song when it is not stored, after the acknowledgment and loading edit |
| SearchMusic.BadIdNoFetch | handlers/searchcmd/search_music.go:87-93 | a value that is not a number after the prefixes are stripped is reported, with no fetch |
| SearchMusic.MissThenHit | handlers/searchcmd/search_music.go:82-107 | a fetched song is stored under the chosen value, and choosing it again shows the same page without asking erogs |
| SearchMusic.RawKeys | handlers/searchcmd/search_music.go:82-101 | "e1", "E1" and "1" are the same song but three store keys, each fetched on its first selection |
| SearchMusic.Routing | handlers/searchcmd/search_music.go:37-49 | a token is routed by behavior alone; a detail-button token is a mismatch; a token never changes the list store or the sessions |

## Left out

- Discord I/O is reduced to actions in a transcript:
  - the response types, "Components V2" layout, colours and dividers;
  - the markdown formatting of every line (the contents of each line are modelled, not their characters);
  - logging.
- Outer calls are parameters:
  - the uuid generator, `GetOptions`, `ParseCIDV2`, `GetUserID`;
  - the vndb, erogs and Bangumi clients, `kurohelpercore.ZhTwToJp`;
  - the user-record database queries of `getErogsUserPlayWishMaps`.
  None of their code is part of this model.
- `utils.NewCID` and its `GetCommandName` (the legacy "|"-separated token) are not part of this
  model. The legacy command name is taken to be the first "|"-separated field of the custom ID,
  and the legacy token is carried as the list of fields.
- `utils.MakeChangePageComponent`, `MakeSelectMenuComponent`, `MakeBackToHomeComponent`,
  `MakeDetailBtnCIDV2` and the `To*CIDV2` conversions are not part of this model. The pager is
  data carrying the command ID, page, page count and handle, so the error that
  `MakeChangePageComponent` may return is not modelled. The token conversions other than
  `ToPageCIDV2` are taken to keep every field.
- `erogs.MakeDMMImageURL` is not part of this model: a DMM cover is carried as its code.
- The vndb `Role`, `Sex` and `Gender` and erogs `ShubetuMap` name tables are not part of this
  model: codes are carried as codes. `RolePriority` is a parameter.
- `vndb.ConvertBBCodeToMarkdown` is not part of this model: a character description is carried
  as its BBCode text.
- Floating-point values (the vndb rating and average, the erogs song score, the cover's sexual
  and violence levels) are carried as `real` and copied through unchanged; the `%.1f` and `%.2f`
  rounding is not modelled.
- Cache TTL, eviction and concurrency (the `go` statements in the dispatcher, concurrent
  handlers on shared stores) are left out. A store is a map that changes only by `Set`, and an
  eviction is a missing key.
- Cache errors other than a miss are not modelled: `Get` reports only `ErrCacheLost`, so the
  "other error" branches of the select flows do not arise.
- Go map iteration order is random. The brand character list is built from the map in
  insertion order, and the model proves only what holds for any order: the role order and
  that every entry appears once.
- `sort.Slice` is not stable. The model uses one particular sorting (an insertion sort). Its
  proved properties (sorted, a permutation) hold for any result of `sort.Slice`, but the order
  of ties is fixed by the model.
- SearchCreator.BuildDetailComponents: `sort.Slice` sorts the cached creator's games in place.
  The model sorts a copy, so the reordering of the cached value is not modelled. It does not
  change any later page, because every build sorts again.
- SearchCharacter.BuildListComponents and SearchCharacter.BuildDetail: the appearances are
  sorted in place in the cached record. The model sorts a copy, for the same reason.
- Shared.Pagination: its precondition excludes the calls that panic (a page in cache mode that
  starts outside the list), because the method cannot return a panic. PaginationR, which has
  the clamp, models every call, and its None result is the panic.
- The command ID's length is counted in characters, which equals Go's byte length for the
  ASCII command IDs the bot uses.
- A fetched record is taken to be a value: nil pointers from the clients are modelled only
  where the code checks for them (the creator builders).
- SearchMusic.BuildList: the page size `searchGameListItemsPerPage` is declared in
  `search_game.go`, which is not part of this model. It is a positive parameter.
- The erogs game selection `erogsSearchGameWithSelectMenuCIDV2` (search game handlers) is not
  part of this model. The brand and creator flows hand off to it as an action.
- The brand and music list builders have no floor of one page, unlike the creator and
  character builders (the model keeps the difference). A search with no results then has a
  page count of 0.
- The Bangumi character search sends no deferred acknowledgment before it searches; the model
  follows the code.
- The user's played and wish records are read from the database on each build of the erogs
  brand list; the model takes them as inputs of that build.
- Paging.Start: Go's page arithmetic is on 64-bit ints, and the model's is on unbounded
  integers. `(page - 1) * per` (and `page * 10` in `utils.Pagination` and `PaginationR`) can
  wrap around in Go for a page near the int64 limits that `strconv.Atoi` accepts, such as
  "-9223372036854775807". Go then computes a wrapped start, while the model's start stays far
  outside the list, so the model gives the slice panic. The wrap-around is not modelled; it
  changes only pages whose arithmetic overflows.
- Shared.Pagination and Shared.PaginationR: the same 64-bit wrap-around of `page * 10` is not
  modelled.
- The slash-command registration in `bot/register.go` is left out: only the routing by name
  is modelled.

## Findings

| source | as written | input that shows it | evidently intended | confidence | as-written member | corrected member |
|---|---|---|---|---|---|---|
| handlers/searchcmd/search_brand.go:251-280 | `tmpAlias` is declared outside the staff loop and is assigned only when a staff member has aliases. A member with no aliases is credited with the previous member's alias text. | A writer `Writer` with the one non-main alias `W`, followed by an artist `Artist` with no aliases: the art block reads `Artist (W)` | each member is credited under that member's own aliases, so the art block reads `Artist ` | not executed | SearchBrand.CarriedAliasShown | SearchBrand.CreditOne |
