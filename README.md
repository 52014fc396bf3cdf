# DisTube Spotify plugin: a Dafny model

This project models the deterministic core of the Spotify plugin for the DisTube
music-bot framework. The plugin turns a Spotify URL into songs that a host can
play. It looks up the track, album, playlist or artist, builds one YouTube
search query per track, and finds a first playable song. It then hands that song
to the host queue, creating the queue if needed, resolves the remaining queries,
and emits the host's playlist events. Three versions of the plugin are modelled:

- **src/API.ts** (module `SpotifyApi`): the metadata client. It covers the
  module-level state (two one-time warning flags and the Web API client's token),
  the per-instance token state (`_hasCredentials`, `_expirationTime`,
  `_tokenAvailable`), `refreshToken` with its credential-grant and page-scraping
  branches, and the URL checks and their error order. It also covers the two
  `getData` paths: the embed path when no token exists, and the Web API path,
  which keeps only records of type "track". Further, it covers the `#getFullItems`
  pagination loop and the `apiError` message.
- **src/index.ts** (modules `Plugin` and `Pipeline`): the current plugin. It
  covers the constructor's option checks, `validate`, and `play`. `play` builds
  the queries, runs the first-song loop, resolves the rest in parallel or in
  sequence, inserts at `position`/`position + 1`, retries queue creation while
  the host answers `true`, and emits `addList`/`playSong`.
- **index.ts** (module `LegacyPlugin`): the earlier TypeScript plugin. It covers
  the module-level `expirationTime`, the `getItems` pagination with its 1000 ms
  staleness test and partial results on a page error, the constructor with its
  asynchronous first grant, and `play` with the `skip`/`unshift` positions. The
  list path of `play` is shared with src/index.ts through `Pipeline.PlayList`.
- **index.js** (module `OldestPlugin`): the oldest plugin. It covers
  `resolvePlaylist`, the bounded first-song loop, the single queue creation that
  returns on the host's `true`, and the sequential background resolution that
  overwrites the query array in place (an `array` in the model).

External services are inputs:

- **Spotify parser:** a function from the string to `ParseOutcome`.
- **YouTube search:** a total function `string -> Option<SearchResult>`.
- **Clock and grant:** each `refreshToken` call reads one `RefreshInput`
  (the clock, the grant's outcome and the scraped landing page).
- **Upstream answers:** a finite script of pages, which must end (`EndsAfter`).
- **Queue creation:** the host's answers form a script that eventually yields a
  queue (`HasCreated`).

The host side is a log of `HostCall`s: queue insertions with their position,
skips, queue creations, and emitted events. An emitted playlist is recorded by the
songs the listener sees at that moment. What a position means to the host is not
interpreted.

Shared building blocks:

- `Common`: `Option`, `Result`, errors, string helpers.
- `Js`: JavaScript values, `typeof`, truthiness, `?.` and `??`, for the option
  checks and `validate`.
- `HostFramework`: songs, the host log, a playlist object.
- `Spotify`: tracks, queries, pages.
- `Validation`: `validate`, which all three versions share.

The model follows the code as written, including these points where it departs from what the plugin's design suggests:

- src/API.ts has no partial-result pagination. A failed page request is turned
  into the `SPOTIFY_API_ERROR` error wrapped by `apiError`. Only index.ts stops
  and returns what it gathered.
- When no token is available, src/API.ts does not paginate the Web API at all. It
  reads the embed page instead.
- src/API.ts has no dedicated error for an empty list. Only index.js refuses a
  list without tracks.
- No guard prevents two overlapping refreshes.
- In src/index.ts and index.ts, a list where every search misses makes the
  first-song loop run forever, which is listed under Findings.
- The 5-second safety margin is subtracted when the expiry is stored.
  `refreshToken` then compares `now < _expirationTime`.
- In index.ts the grant's `expires_in` is added to `Date.now()` without scaling
  seconds to milliseconds. The model states this as written
  (`LegacyPlugin.LegacyRefreshRule`).
- In src/index.ts and index.ts, when the first hit is the last query,
  `playlist.songs` ends as `[firstSong, firstSong]`
  (`Pipeline.FirstSongTwiceWhenNothingRemains`). index.js lists it once
  (`OldestPlugin.OldestSongsAreAllHits`).
- In src/API.ts, when a later grant fails after the first warning was spent,
  `_hasCredentials` stays set. No scrape happens, and `_tokenAvailable` becomes
  true with the old token (`SpotifyApi.RefreshLaterGrantFailure`).

## Model

| member | source | states |
|---|---|---|
| Spotify.Query | src/index.ts:85 | the query of a track is never empty and starts with its name and a space |
| Spotify.Queries | src/index.ts:91-96 | at most one query per record, every query non-empty |
| Spotify.QueriesAppend | src/index.ts:91-96 | the queries of two lists concatenate: query building works record by record, preserving order |
| Spotify.QueriesOnePerTrack | src/index.ts:91-96 | when every record is a track, there is exactly one query per track, `Query` of that track, in input order |
| Spotify.QueriesSkipNonTrack | src/index.ts:93 | a record whose type is not "track" contributes no query, wherever it sits |
| Spotify.OnlyTracks | src/API.ts:196 | the kept records are exactly the non-null records of type "track" |
| Spotify.OnlyTracksAppend | src/API.ts:196 | the track filter distributes over concatenation, so order is preserved |
| Spotify.RawQueries | index.ts:123-129 | the older versions' queries (the wrapped track or the item itself, tracks only) are non-empty and at most one per item |
| Spotify.RawQueriesOfBare | index.ts:124-128 | on bare records the older versions build exactly the queries of the current one |
| Spotify.ListedItems | index.js:92 | `tracks.items` when present, else the bare `tracks` array |
| Validation.Validate | src/index.ts:69-78 | true only for a string holding "spotify"; for such a string, true iff the parser succeeds with one of the four supported types |
| Validation.ValidateIgnoresParserWithoutMarker | index.ts:95 | without the marker the answer is false whatever the parser would say |
| Validation.ValidateDependsOnlyOnParse | index.js:13-23 | the answer depends only on the parser's answer for that string; a non-string is always refused |
| Validation.ValidateTypes | src/API.ts:7 | album, playlist, track and artist are accepted; show, episode and an empty type are refused |
| SpotifyApi.KindOf | src/API.ts:71-73 | a type is recognised iff it is one of the four supported types, and its name is kept |
| SpotifyApi.RegionSetting | src/API.ts:57-68 | the region is accepted iff it is empty or exactly two upper-case letters; empty gives "US", else the code is kept; otherwise "Invalid region code" |
| SpotifyApi.RegionExamples | src/API.ts:66 | "vn" and "invalid-region-code" are refused, "VN" is kept, "" gives "US" |
| SpotifyApi.RefreshBeforeExpiry | src/API.ts:76 | before the expiry, a refresh changes nothing and sends nothing |
| SpotifyApi.RefreshGrantSucceeds | src/API.ts:77-81 | a granted token sets the expiry to `now + expires_in * 1000 - 5000`, marks the token available, and sends one grant request |
| SpotifyApi.RefreshFirstGrantFailure | src/API.ts:82-93 | the first failed grant clears the credentials, spends the first warning (two lines), and falls through to scraping in the same call |
| SpotifyApi.RefreshLaterGrantFailure | src/API.ts:82-115 | a later failed grant keeps the credentials, does not scrape, and marks the old token available |
| SpotifyApi.RefreshScrapeFindsNoToken | src/API.ts:93-108 | a scrape without a token marks the token unavailable, keeps the expiry, and warns only if the second warning was unspent |
| SpotifyApi.RefreshScrapeWithoutExpiry | src/API.ts:110-115 | a scraped token without an expiry is stored and marked available, and the expiry is unchanged |
| SpotifyApi.RefreshIdempotentAfterGrant | src/API.ts:76-81 | after a successful grant, a second refresh before the new expiry changes nothing |
| SpotifyApi.RefreshKeepsBudget | src/API.ts:83-107 | a refresh never re-arms a spent warning flag, and the lines printed are paid from the flags' budget |
| SpotifyApi.WarningsAtMostOnce | src/API.ts:42-43 | over any number of refreshes from the initial module state, each warning is printed at most once (at most three lines in all) |
| SpotifyApi.ScrapeEveryCall | src/API.ts:93-109 | without credentials and with scrapes that find no token, each of `n` calls adds one landing-page request (never a grant) after the earlier requests, and the token stays unavailable |
| SpotifyApi.ApiError | src/API.ts:45-51 | code `SPOTIFY_API_ERROR`; the text starts with "The URL is private or unavailable.", is exactly that iff there is neither a message nor a status, continues with the details when there is a message, and ends with the status line when there is a status |
| SpotifyApi.CheckUrl | src/API.ts:128-133 | parser errors pass through; a missing id gives "Invalid URL" before the type is looked at; then an unsupported type gives "Unsupported URL type"; otherwise the kind is returned |
| SpotifyApi.FromEmbed | src/API.ts:144-156 | the embed list is mapped one to one onto track records named by title with the subtitle as artist, with the input url and the first cover as thumbnail |
| SpotifyApi.PaginateOffsets | src/API.ts:207-209 | a page is requested iff the previous one said `next`; each request asks for `offset + limit` of the previous page |
| SpotifyApi.PaginateItems | src/API.ts:203-212 | the result is the first page's items followed by each fetched page's items, in order; the loop ends at the first page without `next`, or fails with the first failed request |
| SpotifyApi.PageRequestsAt | src/API.ts:205-209 | every page request is for the same list, with limit 100 for a playlist and 50 for an album |
| SpotifyApi.EmbedPathDoesNotPaginate | src/API.ts:144-157 | without a token a list is read from the embed page with one request and no refresh |
| SpotifyApi.ApiListsHoldOnlyTracks | src/API.ts:158-197 | on the Web API path a returned list holds only track records, and every failure is a `SPOTIFY_API_ERROR` |
| SpotifyApi.SpotifyModule.constructor | src/API.ts:9-10 | the module starts with both warnings armed, no token, and nothing sent |
| SpotifyApi.NewApi | src/API.ts:59-69 | credentials are set on the shared client only when both are non-empty, and before the region check; the instance starts expired and without a token; the region follows `RegionSetting` |
| SpotifyApi.Api.constructor | src/API.ts:54-57 | the initial instance state |
| SpotifyApi.Api.RefreshToken | src/API.ts:75-116 | the new instance and module state are those of the `Refresh` specification, and no data request is sent |
| SpotifyApi.Api.RequestPage | src/API.ts:208-209 | one refresh, then exactly one page request is logged |
| SpotifyApi.Api.GetFullItems | src/API.ts:202-213 | the result and the offsets are those of `Paginate`; one page request per offset and one refresh per page |
| SpotifyApi.Api.RequestPageAt | src/API.ts:207-209 | one round of the paging loop refreshes once and logs exactly the next page request, extending the run of requests and refreshes by one |
| SpotifyApi.Api.FetchAlbumTracks | src/API.ts:166 | once the album has arrived, the tracks are paged through and kept only when they are records, with one page request and one refresh per further page |
| SpotifyApi.Api.FetchPlaylistTracks | src/API.ts:174 | once the playlist has arrived, its entries are paged through and unwrapped to their tracks, with one page request and one refresh per further page |
| SpotifyApi.Api.FetchAlbum | src/API.ts:161-168 | the album path agrees with its value-level specification: result, requests and refreshes |
| SpotifyApi.Api.FetchPlaylist | src/API.ts:169-176 | the playlist path agrees with its value-level specification, and entries are unwrapped |
| SpotifyApi.Api.GetData | src/API.ts:127-198 | URL errors are raised with no refresh and nothing sent; otherwise one refresh precedes the fetch, and result, requests and token state follow the specification |
| Pipeline.GetFirstSong | src/index.ts:98-104 | one call shifts a query; a hit replaces the first song, and a miss or a falsy query leaves it |
| Pipeline.FirstHit | src/index.ts:98-105 | the index of the first query with a hit: none iff no query hits, and no query before it hits |
| Pipeline.FirstSongLoopNeverExitsWithoutHit | src/index.ts:105-109 | as written: when no query hits, the first song is unset after any number of iterations, so the loop never ends and the error after it is dead |
| Pipeline.FirstSongLoopExitsAtFirstHit | src/index.ts:98-105 | as written: after `k + 1` iterations (the first hit at `k`) the first song is that hit and exactly the later queries remain |
| Pipeline.FindFirstSong | src/index.ts:105-109 | corrected: the loop stops on the first hit with the later queries left, or with nothing left and no song |
| Pipeline.SearchAll | src/index.ts:124 | one result per query, in query order |
| Pipeline.SearchSequentially | src/index.ts:125-129 | the sequential mode yields what the parallel mode yields |
| Pipeline.FilterSome | src/index.ts:130 | the kept results are exactly the non-null ones |
| Pipeline.MakeSongs | src/index.ts:130-134 | one song per result, in order |
| Pipeline.ResolvedSongsAreHits | src/index.ts:121-135 | resolved songs are the hits of the remaining queries, in query order, misses dropped |
| Pipeline.HitSongsAppend | src/index.ts:121-135 | resolution distributes over concatenation of the queries |
| Pipeline.FinalSongs | src/index.ts:121-139 | the first song is in front, followed by the hits of the rest, or by the array the playlist already had when nothing remains |
| Pipeline.FinalSongsAreAllHits | src/index.ts:114-139 | when queries remain after the first hit, the playlist lists the song of every query with a hit, in list order |
| Pipeline.FirstSongTwiceWhenNothingRemains | src/index.ts:114-138 | when nothing remains, the first song is prepended to `[firstSong]` and appears twice |
| Pipeline.FetchTheRest | src/index.ts:121-139 | the playlist's songs become `FinalSongs`, with one insertion of the hits at the given position when queries remain |
| Pipeline.Retry | src/index.ts:148-152 | retrying always starts with a creation call for the first song at hand |
| Pipeline.RetryOnlyCreates | src/index.ts:148-152 | retrying makes only creation calls, and consumes queries from the front |
| Pipeline.RetryCreatedAtOnce | src/index.ts:148 | when the first creation succeeds there is one creation call and nothing is re-searched |
| Pipeline.RetryEndsAtFirstCreated | src/index.ts:148-152 | with `j` sentinel answers before the first queue, the retry ends with that queue after exactly `j + 1` creation calls |
| Pipeline.CreateQueueWithRetry | src/index.ts:148-152 | the loop agrees with the retry specification: song, remaining queries, queue and calls |
| Pipeline.ListPlayFailsIffNoHit | src/index.ts:105-109 | corrected list path: it fails with the "no tracks" error iff no query hits |
| Pipeline.ExistingQueuePositions | src/index.ts:136-141 | on an existing queue, the first call inserts the first song at the first position, and every bulk insertion uses the rest position |
| Pipeline.FetchCallsTally | src/index.ts:122-137 | fetching the rest makes at most one bulk insertion, and only when queries remain |
| Pipeline.ExistingQueueTally | src/index.ts:140-145 | on an existing queue: one insertion of the first song, a skip iff `skip`, an `addList` iff not `skip`, and a bulk insertion iff queries remain |
| Pipeline.ExistingQueueSkipEvents | src/index.ts:142-143 | with `skip`, the queue is skipped once and no `addList` is emitted |
| Pipeline.ExistingQueueAddListOnce | src/index.ts:143-145 | without `skip`, `addList` is emitted once, right after the insertion or last, per the flag |
| Pipeline.CreationEventsTally | src/index.ts:153-160 | the creation events are one `playSong` and an `addList` only with the host option |
| Pipeline.NewQueueTally | src/index.ts:146-161 | on a new queue: the creations of the retry, one `playSong`, `addList` only with the host option, and a bulk insertion iff queries remain |
| Pipeline.NewQueueCreations | src/index.ts:146-152 | on a new queue there is one creation per sentinel answer plus one, and the queue used afterwards is the first one the host returns |
| Pipeline.NewQueueEvents | src/index.ts:146-161 | on a new queue: the queue is created first, `playSong` is emitted once, nothing is skipped, and the first song is not inserted separately |
| Pipeline.PlayOnExisting | src/index.ts:140-145 | the existing-queue branch agrees with its call specification |
| Pipeline.PlayOnNewQueue | src/index.ts:146-161 | the new-queue branch agrees with its call specification |
| Pipeline.PlayList | src/index.ts:97-161 | the list path: it fails with nothing sent, or makes exactly the specification's calls and ends with its playlist |
| Plugin.CheckOptions | src/index.ts:23-64 | defaults are `parallel = true` and `emitEventsAfterFetching = false`; it succeeds iff the options are an object or absent, pass the key check, have boolean-or-absent flags and a well-typed `api`; the first failing check decides the error: the options type, the key check's own error, then `parallel`, `emitEventsAfterFetching`, `api`, `api.clientId`, `api.clientSecret` and `api.topTracksCountry`, each under its full option name |
| Plugin.CheckOptionsFlagExamples | src/index.ts:25-41 | `parallel: false` is kept; a string flag and an array of options are refused with the source's names |
| Plugin.CheckOptionsApiExample | src/index.ts:45-47 | a truthy non-string client id is refused |
| Plugin.RestPosition | src/index.ts:136 | the rest goes at `position + 1` when not skipping and `position > 0`, else at `position` |
| Plugin.TrackWithoutHitFails | src/index.ts:84-88 | a track without a hit raises `SPOTIFY_PLUGIN_NO_RESULT` with the query in the text, and nothing reaches the host |
| Plugin.ListPositions | src/index.ts:83-141 | the first song goes at `position` (default 0) and the rest at `RestPosition` |
| Plugin.ListWithoutHitsFails | src/index.ts:90-109 | when every track misses, `play` fails with "Cannot find any tracks" and never touches the queue |
| Plugin.QueriesHitNothing | src/index.ts:91-96 | missing tracks give queries without hits |
| Plugin.NewPlugin | src/index.ts:23-66 | the option checks come first; the metadata client is built from the checked `api` fields; its region error comes after the credentials are set |
| Plugin.SpotifyPlugin.constructor | src/index.ts:19-22 | the plugin's fields |
| Plugin.SpotifyPlugin.Play | src/index.ts:80-163 | the result and the host calls are those of the play specification applied to `getData`'s result; the client's token and module state are those of the refreshes `getData` makes, its data requests are `getData`'s, an invalid URL changes neither, and the credentials stay as they were |
| LegacyPlugin.GetItemsWithoutPaging | index.ts:21-23 | a bare array is returned as it is, and a list that is neither a playlist nor an album keeps its first page, with nothing sent |
| LegacyPlugin.NoExpiryFirstPageOnly | index.ts:25 | with no expiry set, it returns the first page only |
| LegacyPlugin.LegacyRefreshRule | index.ts:26-30 | a grant is made only when the expiry is at most `now - 1000`, and the new expiry is `now + expires_in` |
| LegacyPlugin.LegacyPagingRequests | index.ts:24-47 | each page request of the loop asks for the previous page's `offset + limit` at limit 100, at most one per later page, appended after the requests made before |
| LegacyPlugin.LegacyPagingItems | index.ts:24-47 | when paging resolves, its items are the first page's followed by the items of each page fetched, in order |
| LegacyPlugin.LegacyPagingWarnings | index.ts:24-47 | a failed page ends the loop with two warning lines; paging that ends on a good page adds no warning |
| LegacyPlugin.LegacyModule.constructor | index.ts:8-9 | the module starts with expiry 0 and nothing sent |
| LegacyPlugin.LegacyModule.SettleInitialGrant | index.ts:79-89 | a granted token sets the expiry and the token; a failure prints one warning line |
| LegacyPlugin.LegacyModule.GetItems | index.ts:20-48 | the loop agrees with the `getItems` specification: result and module state |
| LegacyPlugin.CheckFlags | index.ts:53-66 | defaults and types of `parallel` and `emitEventsAfterFetching`; the first failing check decides the error: the options type, the key check's own error, then `parallel`, then `emitEventsAfterFetching`, with the index.ts error names |
| LegacyPlugin.CheckApi | index.ts:68-76 | an absent or null `api` means no credentials; any other non-object is refused as `api`; a given object needs both fields to be strings, even empty ones, else `api.clientId` or, with a string id, `api.clientSecret` is named |
| LegacyPlugin.NewLegacyPlugin | index.ts:53-91 | the flag checks, then the token is cleared, then the `api` checks; with credentials the client is configured and one grant is sent |
| LegacyPlugin.LegacyEnv | index.ts:167-175 | the first song goes at 1 with `skip` or `unshift`, else at -1; the rest goes at 1 with `skip`, 2 with `unshift` (existing queue only), else at -1 |
| LegacyPlugin.LegacyPlay | index.ts:105-194 | a track without a hit fails with nothing sent; a list runs `getItems` and then the list path with the index.ts positions and texts |
| OldestPlugin.OldestOptions | index.js:7-11 | `parallel` is true unless the option is the boolean `false`; `emitPlaySongAfterFetching` is its option's truthiness; a `null` argument throws |
| OldestPlugin.OldestSpotifyPlugin.constructor | index.js:9-10 | the plugin's two flags |
| OldestPlugin.NewOldestPlugin | index.js:7-11 | the plugin's flags are those of `OldestOptions` |
| OldestPlugin.ResolvePlaylist | index.js:91-109 | it succeeds iff there is a query and an image; no query gives "does not contains any tracks"; the url falls back to "" |
| OldestPlugin.RemovedTracksOnly | index.js:94-99 | a list of wrappers around removed tracks is refused |
| OldestPlugin.FirstFound | index.js:36-40 | the index of the first query the search finds: none iff none is found, and none before it is found |
| OldestPlugin.FirstFoundIsFirstHit | index.js:36-40 | on non-empty queries, the bounded loop stops where the later versions' loop does |
| OldestPlugin.FindFirstSongBounded | index.js:35-40 | the loop always ends: at the first hit with the later queries left, or with no queries and no song |
| OldestPlugin.SearchEachInPlace | index.js:52-54 | the in-place loop over the array leaves in every slot the search answer for the query it held |
| OldestPlugin.SearchInPlace | index.js:49-55 | the sequential in-place mode yields what the parallel mode yields |
| OldestPlugin.FetchTheRestOnce | index.js:47-60 | the playlist ends as the first song followed by the hits of the rest, inserted once when queries remain |
| OldestPlugin.OldestRestPosition | index.js:57 | the rest goes at 1 with `skip`, at 2 with `unshift`, else at -1, on both paths |
| OldestPlugin.OldestFailsIffNoHit | index.js:42-44 | "Cannot find any tracks" is raised exactly when no query produces a hit |
| OldestPlugin.OldestSongsAreAllHits | index.js:47-60 | a playlist handed to the host lists the song of every query with a hit, in list order, each once |
| OldestPlugin.SentinelStopsPlay | index.js:68-69 | when creation answers `true`, `play` returns after that one call, with no event and no further search |
| OldestPlugin.ExistingCallsTally | index.js:62-66 | on an existing queue there is one insertion of the first song, one skip exactly when skipping, one bulk insertion exactly when queries remain, and one `addList` exactly when not skipping |
| OldestPlugin.CreatedCallsTally | index.js:70-77 | after creating a queue there is exactly one `playSong` and one bulk insertion exactly when queries remain |
| OldestPlugin.OldestExistingQueueEvents | index.js:62-66 | on an existing queue, the first song is inserted first; without `skip`, `addList` is emitted once, last, with every song; with `skip`, the queue is skipped once and nothing is announced |
| OldestPlugin.OldestNewQueueEvents | index.js:67-78 | on a new queue, `addList` is never emitted, and `playSong` once, right after creation or last, per the flag |
| OldestPlugin.PlayOnExistingOnce | index.js:62-66 | the existing-queue branch makes exactly the specification's calls |
| OldestPlugin.PlayOnCreatedOnce | index.js:70-77 | the new-queue branch makes exactly the specification's calls |
| OldestPlugin.PlayQueries | index.js:34-79 | the list path agrees with its specification |
| OldestPlugin.OldestPlay | index.js:25-80 | a track without a hit fails with nothing sent; a list is resolved, then runs the list path |

## Left out

- Network I/O is left out: the Web API client, `fetch` of the landing page, and `spotify-url-info`. Their answers are inputs, and requests are recorded in a log. A failure of the landing-page fetch itself is not modelled.
- The `spotify-uri` parser is not modelled. It is a function from the string to a type and an id, or an error.
- The regular expressions that scrape the page's token and expiry are not modelled. Their result is an optional token plus an optional expiry, given as input.
- Each refresh reads the clock once, and `Date.now()` is an input. The two readings in a successful grant of src/API.ts are taken to be equal. index.ts's two readings are kept apart (`now`, `nowAfterGrant`).
- `Promise.all` concurrency is modelled as an order-preserving map. No interleaving of overlapping `play` or `refreshToken` calls is modelled.
- The polling wait at index.js:71-75 is left out, and it is assumed to end. If the first song never gets a `streamURL`, the source never runs `fetchTheRest` or the late `playSong` (index.js:76-77). OldestPlugin.PlayOnCreatedOnce always makes those calls.
- Console output is left out. Only the number of warning lines is kept, and `console.error` is not counted.
- The host framework is opaque: `Song`, `Playlist`, queue positions, `createQueue`, `emit`, `DisTubeError` formatting, and `checkInvalidKey`. The key check's outcome is the `keyCheck` parameter.
- The member, text channel, voice channel and metadata passed to the host are not recorded. Nor are the thumbnail, name, url and source of the playlist object, whose emitted form is its songs.
- Pipeline.PlayList and Plugin.SpotifyPlugin.Play require that the host eventually creates a queue (`HasCreated`). The source loops forever while creation answers `true`.
- Pipeline.PlayList and LegacyPlugin.LegacyPlay run the corrected, bounded first-song loop. Where every query misses, they fail with the "no tracks" error. The source as written never terminates there (see Findings).
- Plugin.SpotifyPlugin.Play, LegacyPlugin.LegacyPlay and OldestPlugin.OldestPlay return the first-song playlist's songs on the list path, and an empty list on the track path. The source resolves to `undefined` in both cases.
- SpotifyApi.Api.GetData requires a finite page script (`UpstreamEnds`). The source would page without end if the upstream always said `next`.
- The track path of `getData` returns the upstream track record, with only its type, name and artists modelled.
- In index.ts, `getItems` reassigns the caller's `data.tracks`. That aliasing is not modelled, because the caller does not read the field again.
- LegacyPlugin.LegacyPlay does not model the thumbnail read `data.images[0]?.url` at index.ts:122. That read throws a TypeError when the list has no `images` field, before `getItems` runs. The model always goes on to `getItems`. Otherwise the thumbnail only reaches the host's playlist object.
- index.d.ts holds type declarations only, and the tests are not modelled.

## Findings

| source | as written | input that shows it | evidently intended | confidence | as-written member | corrected member |
|---|---|---|---|---|---|---|
| src/index.ts:105 | `while (!firstSong) await getFirstSong();` has no exhaustion test, and index.ts:138 repeats it. Once the queries run out, `getFirstSong` returns without a song forever, so the "Cannot find any tracks" throw right after the loop is unreachable. | a playlist whose every track's search returns no result, e.g. one track and `search` answering `null` | stop when the queries are exhausted and throw the "no tracks" error, as index.js:36 does | high (not executed) | Pipeline.FirstSongLoopNeverExitsWithoutHit | Pipeline.FindFirstSong |
