# Game catalogue filters: a Dafny model

This project models the logic of a browser catalogue of games that is not markup. The user
narrows the catalogue by a name search, a multi-select of genres and of platforms, and a
live/non-live toggle. The filter state is mirrored in the URL's query string. Games, genres
and platforms come from a GraphQL (Hasura) backend. Four pieces are modelled, one Dafny
module each:

- `Api` (`api.dfy`): building the ordered list of `where` conditions of the game query (kept
  as data, never evaluated); counting genre and platform occurrence rows into a map and
  attaching the counts to the type list; decorating each game with its `/images/` and `/gifs/`
  URLs. Every request failure gives `[]`. A request's reply is an input: `Ok(data)` or `Failed`.
- `GameContext` (`game_context.dfy`): the filter record and its default, the two shallow-merge
  mutators, and the store class `GameStore` whose fields are the provider's mutable cells
  (`filters`, `games`, `loading`). `LoadGames` raises the loading flag, runs the fetch (whose
  outcome is an input), stores the games and lowers the flag on every path. A ghost event
  log records each loading-flag change and each request sent, in order.
- `Sidebar` (`sidebar.dfy`): toggling a name in a selection (`indexOf`, then `push` or
  `splice`), Clear, writing the filters into query parameters and reading them back, the
  first-six truncation with its Show More/Less control, and the handlers acting on the store.
  Query parameters are an ordered list of (name, value) pairs with `URLSearchParams`'
  `set`/`get`/`has` semantics (WHATWG URL Standard, section 6.2).
- `GameList` (`game_list.dfy`): the choice between the spinner, the "No games found" view and
  the result list, and the demonstration badges given by position.

`Wrappers` (`wrappers.dfy`) holds `Option`: an absent JavaScript key, `undefined` or `null`.

The toggles copy the selection and then mutate the copy. No other code can see the copy, so
they are modelled as functions on sequences without loss. The builders that fill a fresh
object one step at a time (the `whereConditions` pushes, the `params.set` calls, the
`initialFilters` fields) are methods. Each is proved equal to a specification function, and
the properties are proved about that function.

Three behaviours of the code are worth stating outright:
- The URL round trip (filters written to the query string and read back into the default
  state) holds when no selected genre or platform name contains a comma; a name containing a
  comma breaks it, because it comes back split (`Sidebar.UrlRoundTripExactly`,
  `Sidebar.CommaBreaksRoundTrip`).
- Selections are ordered lists, not sets. The toggles keep them duplicate-free
  (`Sidebar.ToggleAsSet`), but a URL such as `genres=a,a` decodes to a list with a duplicate.
- When `fetchGames` is called without `liveOnly`, the option defaults to `false`, while the
  store's own default is `true`; the store always passes the option.

## Model

| member | source | states |
|---|---|---|
| `Api.OccurrencesPositive` | src/api/index.js:37-41 | a name's occurrence count is positive iff some row carries the name |
| `Api.CountOf` | src/api/index.js:40 | `countMap[name] || 0`: the map's value for a key, 0 for a name that is not a key (also line 46) |
| `Api.CountOccurrences` | src/api/index.js:37-41 | the `countMap` loop maps every name to its number of rows; its keys are exactly the names that occur |
| `Api.AttachCounts` | src/api/index.js:44-47 | same length and order as the type list; each entry keeps its name and gets the map's count, or 0 when the name is not a key |
| `Api.CountedTypes` | src/api/index.js:33-52 | on failure `[]`; on success one entry per type, in order, with its number of occurrence rows |
| `Api.FetchGenres` | src/api/index.js:17-53 | every genre type in order with the number of `game_genres` rows naming it (0 if none); `[]` when the request fails |
| `Api.FetchPlatforms` | src/api/index.js:59-95 | every platform type in order with the number of `game_platforms` rows naming it (0 if none); `[]` when the request fails |
| `Api.NameSearch` | src/api/index.js:107 | an omitted `nameSearch` reads as `""`, a given one as itself |
| `Api.GenreFilters` | src/api/index.js:108 | an omitted `genreFilters` reads as `[]`, a given one as itself |
| `Api.PlatformFilters` | src/api/index.js:109 | an omitted `platformFilters` reads as `[]`, a given one as itself |
| `Api.LiveOnly` | src/api/index.js:110 | an omitted `liveOnly` reads as `false`, a given one as itself |
| `Api.WhereConditions` | src/api/index.js:106-139 | an `is_live` equality carrying `liveOnly` (false when omitted); a name `_ilike` condition iff the search is non-empty, with pattern `%search%`; a genre/platform `_in` condition iff that list is non-empty, carrying it exactly |
| `Api.WhereConditionsShape` | src/api/index.js:113-139 | exactly one `is_live` condition; order name, live, genre, platform, each kind at most once; 1 to 4 conditions; just `[IsLiveEq(liveOnly)]` with no search and no selection |
| `Api.BuildWhereConditions` | src/api/index.js:113-139 | the step-by-step pushes build exactly the specified condition list |
| `Api.MediaUrl` | src/api/index.js:170-175 | a URL iff the file name is present and non-empty; then the URL is the prefix followed by exactly that name |
| `Api.Decorate` | src/api/index.js:167-176 | every field of the game row kept; `image_url` is `/images/` + image name when that name is non-empty, else null; `gif_url` likewise with `/gifs/` |
| `Api.DecorateAll` | src/api/index.js:167-176 | same length and order as the rows, each row kept and decorated |
| `Api.FetchGames` | src/api/index.js:161-182 | sends `{where: {_and: conditions}}` with the specified conditions; resolves with the decorated rows, or `[]` when the request fails |
| `GameContext.DefaultFilters` | src/context/GameContext.js:27-32 | empty search, empty genre and platform lists, `liveOnly` true |
| `GameContext.Merge` | src/context/GameContext.js:93-98 | each field present in the patch takes the patch's value; every other field keeps its value |
| `GameContext.SetField` | src/context/GameContext.js:85-90 | the named field takes the value; the other three are unchanged |
| `GameContext.PatchOf` | src/context/GameContext.js:85-90 | the one-key patch `{k: v}`, with exactly the named field present |
| `GameContext.SetFieldIsMerge` | src/context/GameContext.js:85-98 | `updateFilter(k, v)` equals `updateMultipleFilters({k: v})` |
| `GameContext.MergeLaws` | src/context/GameContext.js:93-98 | the empty patch is the identity; applying a patch twice equals applying it once |
| `GameContext.Combine` | src/context/GameContext.js:93-98 | two merges in a row equal one merge of the right-biased combined patch |
| `GameContext.FetchOptions` | src/context/GameContext.js:57-62 | the fetch gets `searchQuery`, `selectedGenres`, `selectedPlatforms`, `liveOnly` as `nameSearch`, `genreFilters`, `platformFilters`, `liveOnly`, with `liveOnly` always passed |
| `GameContext.DefaultQuery` | src/context/GameContext.js:27-32 | with the default filters the game query has the single condition `is_live = true` |
| `GameContext.GameStore.constructor` | src/context/GameContext.js:21-32 | starts with the default filters, no games, and `loading` true |
| `GameContext.GameStore.UpdateFilter` | src/context/GameContext.js:85-90 | the filters become the old filters with the one field set |
| `GameContext.GameStore.UpdateMultipleFilters` | src/context/GameContext.js:93-98 | the filters become the old filters merged with the patch |
| `GameContext.GameStore.BeginLoad` | src/context/GameContext.js:55-62 | logs and sets `loading` to true, and returns the fetch options built from the current filters |
| `GameContext.GameStore.Fetch` | src/context/GameContext.js:57-62 | the awaited `fetchGames` call: sends the specified conditions, yields the decorated rows or `[]` on failure, and logs the request; `loading` and `games` are untouched |
| `GameContext.GameStore.SettleLoad` | src/context/GameContext.js:63-68 | `games` takes the fetched list when the call fulfilled and is unchanged when it threw; `loading` is set to false either way |
| `GameContext.GameStore.LoadGames` | src/context/GameContext.js:54-69 | the event log gains exactly "loading true, request sent, loading false" when the call completes and "loading true, loading false" when it threw, so the flag is up while the request is in flight and down afterwards; the filters are unchanged; the query sent is built from the current filters; `games` becomes the decorated reply, `[]` on a failed request, and is unchanged when the call threw |
| `Sidebar.IndexOf` | src/components/Sidebar/index.js:37 | -1 iff the name is absent; otherwise the first index holding it |
| `Sidebar.Toggle` | src/components/Sidebar/index.js:35-46 | an absent name is appended at the end; a present name has only its first occurrence removed, with the rest in order |
| `Sidebar.ToggleTwiceAbsent` | src/components/Sidebar/index.js:36-45 | toggling an absent name twice restores the list |
| `Sidebar.ToggleAsSet` | src/components/Sidebar/index.js:36-45 | on a duplicate-free list the result is duplicate-free, the name's membership is flipped and every other name's is kept |
| `Sidebar.RemovedAt` | src/components/Sidebar/index.js:42 | splicing one index out of a duplicate-free list keeps it duplicate-free and removes exactly that element's name |
| `Sidebar.ToggleGenre` | src/components/Sidebar/index.js:35-46 | `toggleGenre` updates only `selectedGenres`, to its toggle |
| `Sidebar.TogglePlatform` | src/components/Sidebar/index.js:49-60 | `togglePlatform` updates only `selectedPlatforms`, to its toggle |
| `Sidebar.ToggleLive` | src/components/Sidebar/index.js:20-22 | the live toggle flips `liveOnly` and changes nothing else |
| `Sidebar.ToggleLiveTwice` | src/components/Sidebar/index.js:20-22 | flipping the live toggle twice restores the state |
| `Sidebar.ClearVisible` | src/components/Sidebar/index.js:133-135 | the Clear button is shown iff applying Clear would change the filters (a search or a selection is active) |
| `Sidebar.Cleared` | src/components/Sidebar/index.js:25-32 | Clear empties the search and both selections and keeps `liveOnly`; afterwards the Clear button (lines 133-135) is hidden; Clear changes the state iff the button was shown |
| `Sidebar.Get` | src/components/Sidebar/index.js:99 | `params.get(key)`: stated by `Sidebar.GetIsFirst` |
| `Sidebar.GetIsFirst` | src/components/Sidebar/index.js:99 | `get` answers with the value of the first pair carrying the name |
| `Sidebar.Has` | src/components/Sidebar/index.js:98 | `params.has(key)`: stated by `Sidebar.HasIffPair` |
| `Sidebar.HasIffPair` | src/components/Sidebar/index.js:98 | `has` holds iff some pair carries the name (also lines 102, 106, 110) |
| `Sidebar.Set` | src/components/Sidebar/index.js:75 | after `params.set(k, v)`, `get(k)` is `v` and every other key reads as before; on a params list without `k`, the pair is appended |
| `Sidebar.Join` | src/components/Sidebar/index.js:79 | `join(",")` of no parts is `""` and of one part is that part (also line 83) |
| `Sidebar.JoinCommas` | src/components/Sidebar/index.js:79 | a join of `n` parts holds at least `n - 1` commas, and at least `n` when some part holds a comma |
| `Sidebar.Split` | src/components/Sidebar/index.js:103 | `split(",")` always yields at least one part and no part holds a comma |
| `Sidebar.SplitCount` | src/components/Sidebar/index.js:103 | splitting yields exactly one part more than the string has commas (also line 107) |
| `Sidebar.SplitJoin` | src/components/Sidebar/index.js:79 | splitting the joined list gives the list back when it is non-empty and comma-free |
| `Sidebar.JoinSplit` | src/components/Sidebar/index.js:103 | joining the split parts always gives the string back |
| `Sidebar.BoolString` | src/components/Sidebar/index.js:86 | `liveOnly.toString()` is `"true"` iff `liveOnly` holds, which the decoder's test on line 111 relies on |
| `Sidebar.Encode` | src/components/Sidebar/index.js:71-86 | a `search` key iff the query is non-empty, holding it; `genres`/`platforms` keys iff the list is non-empty, holding it joined with commas; `live` always, `"true"` or `"false"`; no other keys |
| `Sidebar.EncodeParams` | src/components/Sidebar/index.js:72-86 | the `set` calls on a fresh params object produce exactly the specified parameters |
| `Sidebar.Decode` | src/components/Sidebar/index.js:96-112 | a field is present iff its key is present; `search` is copied; `live` decodes to true iff its value is exactly `"true"`; a decoded list is never empty, has no comma in any part, and joins back to the parameter's value |
| `Sidebar.DecodeParams` | src/components/Sidebar/index.js:96-112 | filling `initialFilters` field by field produces exactly the specified patch |
| `Sidebar.UrlPatch` | src/components/Sidebar/index.js:114-116 | no update iff none of the four keys is present; otherwise the decoded patch |
| `Sidebar.UrlRoundTrip` | src/components/Sidebar/index.js:72-115 | the default state merged with the decoding of the encoding of `f` is `f`, when no selected name contains a comma |
| `Sidebar.UrlRoundTripExactly` | src/components/Sidebar/index.js:72-115 | the round trip restores `f` iff no selected genre or platform name contains a comma |
| `Sidebar.CommaBreaksRoundTrip` | src/components/Sidebar/index.js:102-104 | a selected genre `a,b` (with `a` and `b` comma-free) comes back as the two genres `[a, b]`, so the round trip fails and the proviso is needed |
| `Sidebar.Visible` | src/components/Sidebar/index.js:119-125 | a prefix of the list: all of it when expanded, the first `min(6, n)` when collapsed; a collapsed list is shown whole iff it has at most six items |
| `Sidebar.HasShowMore` | src/components/Sidebar/index.js:215 | the Show More/Less control exists (`n > 6`, also line 253) iff the collapsed list hides some item |
| `Sidebar.ToggleSection` | src/components/Sidebar/index.js:63-68 | flips one section's expanded flag and keeps the other |
| `Sidebar.ToggleSectionTwice` | src/components/Sidebar/index.js:63-68 | toggling a section twice restores the flags |
| `Sidebar.HandleToggleGenre` | src/components/Sidebar/index.js:35-46 | the store's genre selection becomes its toggle; nothing else changes |
| `Sidebar.HandleTogglePlatform` | src/components/Sidebar/index.js:49-60 | the store's platform selection becomes its toggle; nothing else changes |
| `Sidebar.HandleToggleLive` | src/components/Sidebar/index.js:20-22 | the store's `liveOnly` is negated; nothing else changes |
| `Sidebar.HandleClearFilters` | src/components/Sidebar/index.js:25-32 | the store's filters become the cleared filters |
| `Sidebar.ApplyUrl` | src/components/Sidebar/index.js:93-117 | the store is unchanged when the URL has none of the keys; otherwise it is merged with the decoded patch |
| `Sidebar.ReloadFromUrl` | src/components/Sidebar/index.js:71-117 | a fresh store that reads the URL written for `f` holds `f`, when no selected name contains a comma |
| `GameList.WithBadges` | src/components/GameList/index.js:27-31 | same length, each game kept; `is_top_25` iff the index is below 2, `is_top_100` iff it is 2 or 3; never both |
| `GameList.BadgeCounts` | src/components/GameList/index.js:29-30 | among the first `k` games, `min(2, k)` carry the top-25 badge and `min(2, k - 2)` the top-100 badge (0 when `k <= 2`) |
| `GameList.ViewFor` | src/components/GameList/index.js:7-53 | the spinner while loading, whatever the games; "No games found" when not loading and the list is empty; otherwise the badged list with the result count equal to the number of games |

## Left out

- The GraphQL client, the endpoint and admin-secret configuration, the query texts and `client.request`: each reply is an input (`Api.Response`). Errors thrown while reading a reply (a missing field) are folded into `Failed`, which the source also catches.
- Server-side meaning of `_ilike`, `_in` and `order_by: {name: asc}`: conditions are data only.
- The `console.error` logging on failures.
- The 300 ms debounce, `setTimeout`/`clearTimeout`, and the race between overlapping fetches: they depend on timers and concurrency. `LoadGames` models one complete run.
- The initial `Promise.all` load of genres and platforms into the store (asynchronous orchestration). `Api.FetchGenres` and `Api.FetchPlatforms` model each fetch; the store's `genres` and `platforms` cells are not modelled.
- `navigate(..., {replace: true})`, `window.location`, and the percent-encoding of `URLSearchParams`: browser and router interfaces. Parameter values are the decoded strings.
- Api.CountOccurrences: `countMap` is modelled as a dictionary without inherited keys. In JavaScript a plain object also answers inherited names such as `constructor`, so a genre with such a name would not count from zero.
- Api.GameQueryOptions: an option is either omitted (`None`, the default applies) or a value. An explicit `null` list, which makes `.length` throw before the `try`, is not modelled.
- Sidebar.Set: when the key is already present, the contract states what `get` returns afterwards, not where the surviving pair sits in the list.
- The search box's `onChange` (`updateFilter("searchQuery", value)`) is `GameStore.UpdateFilter` with `SearchQuery`; it has no separate member.
- The `count || 0` fallback in the sidebar's markup: counts are always numbers here.
- The GameCard component (image preloading with load/error callbacks and a 5 s timeout, hover state), the Filter component (it writes keys the store does not have), GameDirectory, App and the entry point: presentation and bootstrapping.
- All JSX markup, CSS classes, icons, and the non-functional "SORT BY" select.
