# Portfolio site data layer, modelled in Dafny

This project models the data layer of the portfolio site
afif25fradana.github.io. The site is a static page whose scripts do five things:

- fetch the owner's public GitHub repositories;
- load the hobbies and music data files;
- check the shape of those files;
- keep oEmbed metadata and the repository list in `localStorage` with a
  time-to-live;
- decide what each section's container shows.

The project has these parts:

- `json.dfy` (`Json`) holds JSON values as the scripts see them after
  `JSON.parse`. It gives JavaScript truthiness, property access (a missing
  property reads as `undefined`) and `.length`.
- `storage.dfy` (`Storage`) is `localStorage`: a class over a map from keys
  to items. An item is a well-formed cache entry `{data, timestamp}` or some
  other text.
- `network.dfy` (`Network`) is `fetch`: a class holding a script of
  outcomes, answered one per request, and the log of requested URLs.
- `strings.dfy` (`Strings`) holds the string operations the scripts use:
  `includes`, `startsWith`, `split(' ')`, and `replace`/`match` with the
  three regular expressions of the music cards.
- `cache_manager.dfy` (`Cache`) is `CacheManager`: prefixed keys, a
  best-effort write, and a read that returns the data within the duration
  and deletes a stale entry.
- `github.dfy` (`GitHub`) is `GitHubFetcher`. It covers:
  - the retry loop, with a ceiling of three retries and linear backoff;
  - the ten-minute repository cache;
  - the fork filter;
  - the stale-while-revalidate choice of the container's view: cached
    list, loading state, no-repositories message, cards or error box.
- `data_validator.dfy` (`DataValidator`) holds the shape checks of the
  hobbies and music files. Each returns pass, fail or a TypeError. The
  TypeError comes from reading a property of a `null` element.
- `hobbies.js` is modelled as `hobbies.dfy` (`Hobbies`), which is
  `HobbiesGenerator`. It covers:
  - loading and checking the data (with its own copy of the check);
  - splitting each icon string into colour classes and icon classes;
  - the first colour class choosing the colour;
  - `classList.add` rejecting bad tokens;
  - the resulting view.
- `music_card_generator.dfy` (`MusicCards`) is `MusicCardGenerator`. It
  covers:
  - the data selection and its fallback;
  - `fetchMetadata` (a fifteen-minute cache, then the oEmbed endpoints in
    order, skipping YouTube for channel URLs);
  - `encodeURIComponent`;
  - the thumbnail rewrites, the video-id fallback title, the song card,
    mobile slicing and the playlist title merge.

The model keeps each source file's form:

- Objects whose fields the scripts update become classes. Their methods
  are proved against specification functions: `RetryRun`, `FetchReposSpec`,
  `Attempts`, `MetadataLookup`, `CardsOf`, `Selection` and the verdict
  functions.
- The lemmas state what the site promises about those functions.
- Clocks are parameters: `now`, `readTime`, `writeTime`.
- A storage write that hits the quota is a `quotaExceeded` flag.
- The network is a scripted sequence of outcomes. A script that has run
  out answers every further request with a transport error.
- `wait(ms)` is recorded in a list of waits instead of being slept.

## Model

| member | source | states |
|---|---|---|
| Cache.CacheManager.constructor | src/js/components/cache-manager.js:10-13 | the manager keeps its key prefix and duration |
| Cache.CacheManager.CacheKey | src/js/components/cache-manager.js:20-22 | the key is the prefix, a colon, then the URL, and nothing else |
| Cache.CacheKeyInjective | src/js/components/cache-manager.js:20-22 | under one prefix, distinct URLs never share a key |
| Cache.CacheManager.Set | src/js/components/cache-manager.js:29-41 | the storage afterwards holds `{data, timestamp: now}` under the URL's key; a write the storage refuses leaves it unchanged and does not fail |
| Cache.WriteChangesOnlyItsKey | src/js/components/cache-manager.js:29-41 | a write changes no key but its own, stores exactly the entry with the write time, and changes nothing when the quota is hit |
| Cache.CacheManager.Get | src/js/components/cache-manager.js:48-69 | the result and the new storage are those of the read rule: data of an entry at most `duration` old; null for a missing, empty or malformed item; null plus deletion for a stale entry |
| Cache.ReadHitIff | src/js/components/cache-manager.js:51-63 | a read returns `data` exactly when the key holds a well-formed entry with that data whose age is at most the duration (both directions) |
| Cache.ReadRemovesOnlyStaleKey | src/js/components/cache-manager.js:51-61 | a read deletes only its own key, and only a stale entry; missing or malformed items and hits leave storage unchanged |
| Cache.WriteThenRead | src/js/components/cache-manager.js:29-63 | reading back a write gives the data while its age is within the duration and null afterwards |
| Cache.TenMinuteBoundary | js/github.js:300-305 | with a ten-minute duration an entry still reads (and stays) at exactly 600000 ms of age, and reads as absent and is deleted at 600001 ms |
| Storage.LocalStorage.GetItem | src/js/components/cache-manager.js:51 | `getItem` returns the stored item, or null exactly when the key is absent |
| Storage.LocalStorage.SetItem | src/js/components/cache-manager.js:36 | `setItem` stores the item under the key, or throws and stores nothing when the quota is exceeded |
| Storage.LocalStorage.RemoveItem | src/js/components/cache-manager.js:59 | `removeItem` deletes the key and nothing else, and a missing key is no error |
| Network.Net.Fetch | js/github.js:128 | one request consumes the next scripted outcome and appends its URL to the log |
| Json.JsLength | js/github.js:35 | `.length` throws exactly on null; an array or a string gives its number of elements, an object its own `length` field (or undefined), a number or boolean undefined |
| Json.LengthZeroIff | js/github.js:35 | `.length === 0` holds exactly for the empty string, the empty array and an object whose own `length` is 0 |
| Strings.Split | js/hobbies.js:194 | `split(' ')` gives at least one part, and no part contains the separator |
| Strings.SplitJoin | js/hobbies.js:194 | joining the parts of `split(sep)` with `sep` gives back the string: splitting loses no character |
| Strings.LitThenRunMatch | src/js/components/music-card-generator.js:410 | a match of `lit[cls]+` is the literal followed by a non-empty run of the class, and the string contains both together |
| Strings.Search | src/js/components/music-card-generator.js:410 | the search returns the leftmost match, with no match at any earlier index; no result means no index matches |
| Strings.SearchFindsLeftmost | src/js/components/music-card-generator.js:410 | any match with no match before it is the one the search returns |
| Strings.ReplaceFirst | src/js/components/music-card-generator.js:198 | a string in which the pattern matches nowhere comes back unchanged |
| Strings.ReplaceFirstAt | src/js/components/music-card-generator.js:198 | `replace` without the global flag puts the replacement exactly in place of the leftmost match and keeps the rest |
| DataValidator.ImagesFrom | src/js/components/data-validator.js:30-35 | the image loop passes exactly when every remaining image has a truthy `url` and `alt`, and throws only on a null image |
| DataValidator.HobbyCheck | src/js/components/data-validator.js:23-36 | one hobby passes exactly when it is valid, and throws only when it or one of its images is null |
| DataValidator.HobbiesFrom | src/js/components/data-validator.js:22-37 | the hobby loop passes exactly when every remaining hobby is valid, and throws only on a null hobby or null image |
| DataValidator.HobbiesVerdict | src/js/components/data-validator.js:10-41 | `validateHobbiesData` returns true exactly on valid data (a truthy object whose `hobbies` is an array of hobbies with truthy id, title, icon and an array of images with truthy url and alt); it fails on falsy or non-object data or a non-array list, and throws only on a null element |
| DataValidator.ArtistsFrom | src/js/components/data-validator.js:70-76 | the artist loop passes exactly when every remaining artist has a truthy url, name and thumbnail, and throws only on a null artist |
| DataValidator.MusicVerdict | src/js/components/data-validator.js:48-90 | `validateMusicData` returns true exactly on valid music data (three arrays, valid artists, every song a string containing `youtube.com/watch`), and throws only on a null artist |
| DataValidator.EmptyHobbiesPass | src/js/components/data-validator.js:16-40 | an object with an empty `hobbies` array passes |
| DataValidator.RemoveHobbyKeepsValid | src/js/components/data-validator.js:22-37 | removing any hobby from valid data keeps it valid |
| DataValidator.RemoveImageKeepsValid | src/js/components/data-validator.js:30-36 | removing any image from a valid hobby keeps it valid |
| DataValidator.RemoveMusicEntryKeepsValid | src/js/components/data-validator.js:69-86 | removing any artist, favourite song or recent song from valid music data keeps it valid |
| DataValidator.PlaylistsIgnored | src/js/components/data-validator.js:48-90 | the music check never looks at `playlists`: any value there leaves the verdict unchanged |
| Hobbies.Selected | js/hobbies.js:19-40 | the list kept holds only valid hobbies, and a non-empty list comes only from an ok, parsed load |
| Hobbies.FailureSelectsNothing | js/hobbies.js:21-40 | a failed request, an unparsable body, or data that fails or throws in the check all leave the empty list |
| Hobbies.ValidDataSelected | js/hobbies.js:29-33 | valid data is kept whole |
| Hobbies.ColorTokens | js/hobbies.js:197-203 | the colour list holds only `text-` tokens, each taken from the icon string |
| Hobbies.ClassTokens | js/hobbies.js:197-203 | the class list holds only non-`text-` tokens, each taken from the icon string |
| Hobbies.TokensAppend | js/hobbies.js:197-203 | the partition works token by token, so both lists keep the tokens' order |
| Hobbies.PartitionIsExact | js/hobbies.js:197-203 | every token lands in exactly one list: together they hold the tokens with their multiplicities |
| Hobbies.IconColor | js/hobbies.js:206-219 | a colour is set exactly when the first colour class is a known one, and it is that class's colour |
| Hobbies.NoColorTokens | js/hobbies.js:206 | an icon with no `text-` token gets no colour list |
| Hobbies.FirstColorDecides | js/hobbies.js:206-219 | the first `text-` token alone decides the colour: a known one gives its colour whatever follows, an unknown one gives none even when a known one comes later |
| Hobbies.CardOf | js/hobbies.js:182-238 | a built card has the icon's class tokens, the first colour's colour, the hobby's title and its images; a non-string icon, a rejected class token, a non-array images field or a null image gives no card |
| Hobbies.ClassListAccepts | js/hobbies.js:197-202 | `classList.add` takes a token that is non-empty and free of ASCII whitespace |
| Hobbies.TokenRejected | js/hobbies.js:197-202 | one class token that `classList.add` rejects (empty or holding whitespace) makes the whole card throw |
| Hobbies.ValidHobbyHasCard | js/hobbies.js:194-238 | a hobby that passed the check and whose icon is a string of acceptable class tokens always gets its card |
| Hobbies.CardsOf | js/hobbies.js:182-244 | the cards exist exactly when every hobby has one, and then there is one per hobby, in order |
| Hobbies.EmptyListRendersMessageOnly | js/hobbies.js:106-109 | an empty list shows "No hobbies found." and no card |
| Hobbies.OneCardPerHobby | js/hobbies.js:182-244 | a rendered list shows one card per hobby, each with that hobby's title and images |
| Hobbies.HobbiesGenerator.constructor | js/hobbies.js:10-12 | the generator starts with no hobbies |
| Hobbies.HobbiesGenerator.ValidateHobbiesData | js/hobbies.js:54-85 | the generator's own copy of the check, with its two nested loops, gives the shared validator's verdict on every input |
| Hobbies.HobbiesGenerator.Init | js/hobbies.js:17-47 | `init` keeps the selected list and then shows the loading view followed by the rendered view; nothing is shown without the container |
| Hobbies.HobbiesGenerator.RenderHobbies | js/hobbies.js:90-117 | the list is unchanged; the container shows the loading view, then the message, the cards or the error box |
| Hobbies.HobbiesGenerator.RenderHobbyCards | js/hobbies.js:178-252 | the card loop yields the cards of every hobby in order, or nothing when one card throws |
| Hobbies.HobbiesGenerator.CreateCard | js/hobbies.js:183-238 | the loop over icon tokens and images builds exactly the card the card rule gives |
| GitHub.RetryTrace | js/github.js:126-146 | the loop always answers: a response or a re-thrown error. The counter stays within the ceiling and only grows. One request more is made than there are retries, each wait follows a 403 or a transport error and is 2000·(k+1) or 1000·(k+1) ms, and the last outcome decides the reply |
| GitHub.RetryFallsThroughIff | js/github.js:126-147 | `fetchWithRetry` returns `undefined` exactly when the counter already exceeds the ceiling |
| GitHub.NonRateLimitedFirstTry | js/github.js:128-138 | a first answer other than 403 is returned at once, without waiting or counting |
| GitHub.AlwaysFailingTransport | js/github.js:139-145 | a transport that always fails is tried four times, with waits of 1, 2 and 3 s, and the error is re-thrown |
| GitHub.RateLimitedTwiceThenOk | js/github.js:130-138 | two 403s and then a success return the success after three requests, with waits of 2 and 4 s |
| GitHub.NonForks | js/github.js:206 | the filter keeps only repositories that are in the list and are not forks, and never more than the list holds |
| GitHub.RenderRepos | js/github.js:201-270 | rendering throws exactly for a non-array, a null entry, or a non-fork repository whose `topics` is truthy but not an array; it shows the no-repositories message exactly when every entry is a fork |
| GitHub.NonForksAppend | js/github.js:206 | the fork filter distributes over concatenation, so kept repositories stay in order |
| GitHub.NonForksMembers | js/github.js:206 | a repository is shown exactly when it is in the list and is not a fork |
| GitHub.RenderReposShowsNonForks | js/github.js:201-270 | a list renders the non-fork repositories in order, or the no-repositories message when none is left |
| GitHub.Rendered | js/github.js:29 | cached data counts as rendered if and only if it is present and truthy, and then it is the cached value itself |
| GitHub.ErrorOnlyWithoutCachedRender | js/github.js:85-93 | once the cache rendered something, no failure of the refresh ever shows the error view |
| GitHub.FailureWithoutCacheShowsError | js/github.js:42-90 | without cached data a failed fetch shows the loading view and then the error view, and writes nothing to the cache |
| GitHub.OnlyOkResponsesAreCached | js/github.js:47-56 | only an ok response with a parsable body is cached, stored whole (before the fork filter) with the write time |
| GitHub.UnchangedRefreshRendersOnce | js/github.js:70-83 | a refresh that brings back exactly the cached list does not rebuild the container |
| GitHub.CachedEmptyListSkipsFetch | js/github.js:28-38 | a cached empty list shows the message and ends the call, with no request, no wait and no counter change |
| GitHub.RetryCounterOnlyGrows | js/github.js:123-147 | `fetchRepos` never lowers the retry counter nor takes it past the ceiling |
| GitHub.EmptyCacheThenTwoRepos | js/github.js:24-69 | with an empty cache and an answer listing `repo-a` and the fork `repo-b`: one request, the loading view, then a single card for `repo-a`; the cache holds both |
| GitHub.GitHubFetcher.constructor | js/github.js:11-18 | the fetcher starts with retry counter 0 and an empty container |
| GitHub.GitHubFetcher.Wait | js/github.js:154-156 | `wait(ms)` records one wait of `ms` |
| GitHub.GitHubFetcher.FetchWithRetry | js/github.js:123-147 | the loop's reply, final counter, waits, requests and consumed answers are those of the retry run |
| GitHub.GitHubFetcher.CacheRepos | js/github.js:276-287 | the list is stored under `github_repos` with the write time, or storage stays as it was when the write is refused |
| GitHub.GitHubFetcher.GetCachedRepos | js/github.js:293-313 | the same read rule as the cache manager, under the fixed key and a ten-minute duration, stale entries deleted |
| GitHub.GitHubFetcher.DisplayErrorMessage | js/github.js:171-186 | the container shows the error box with its Retry button |
| GitHub.GitHubFetcher.ShowCachedRepos | js/github.js:27-45 | the views shown and the decision to go on fetching are those the cached data dictates |
| GitHub.GitHubFetcher.ShowFreshRepos | js/github.js:47-93 | the cache write and the views shown after the request are those the reply and the rendered cache dictate |
| GitHub.GitHubFetcher.FetchRepos | js/github.js:24-94 | the whole state after `fetchRepos` (storage, requests, waits, counter, views) is the fetch specification applied to the state before |
| GitHub.GitHubFetcher.RetryClicked | js/github.js:188-193 | the Retry button runs `fetchRepos` again from a counter of zero |
| MusicCards.EncodeUriComponent | src/js/components/music-card-generator.js:131 | the encoding holds only unreserved characters, `%` and upper-case hex digits, is at least as long as the input, and leaves an all-unreserved string as it is |
| MusicCards.EncodedStaysOneValue | src/js/components/music-card-generator.js:131 | an encoded URL contains no `/`, `?`, `&`, `=` or `#`, so it stays a single query value of the endpoint |
| MusicCards.Skipped | src/js/components/music-card-generator.js:124 | an endpoint is skipped when the URL is a channel URL and the endpoint is YouTube's oEmbed |
| MusicCards.Accepts | src/js/components/music-card-generator.js:134-144 | an answer is taken when it is ok, parses to something other than null, and has no truthy `error` field |
| MusicCards.Usable | src/js/components/music-card-generator.js:118-129 | the endpoints that may be asked are exactly the listed ones a channel URL does not skip: every one kept is listed and not skipped, every listed one not skipped is kept |
| MusicCards.UsableAppend | src/js/components/music-card-generator.js:118-129 | the endpoints are filtered one at a time, so the usable ones keep their listed order |
| MusicCards.RequestsAt | src/js/components/music-card-generator.js:131 | the k-th request is the k-th endpoint asked followed by the encoded URL |
| MusicCards.AttemptsInOrder | src/js/components/music-card-generator.js:118-155 | endpoints are asked in their listed order, skipping only the ones a channel URL skips; without an accepted answer all usable endpoints were asked |
| MusicCards.FirstAcceptedAnswer | src/js/components/music-card-generator.js:118-158 | the first accepted answer is the result and nothing after it is asked; every earlier answer (all of them when there is no result) was failed, unparsable, null or an error |
| MusicCards.ChannelNeverAskedOfYouTube | src/js/components/music-card-generator.js:124-129 | a channel URL is never sent to an endpoint containing `youtube.com/oembed` |
| MusicCards.CacheHitNeedsNoRequest | src/js/components/music-card-generator.js:112-115 | any fresh, truthy cache hit is returned without any request, and storage is untouched |
| MusicCards.AcceptedAnswerIsCached | src/js/components/music-card-generator.js:133-158 | an accepted answer is returned and stored under the URL's key with the write time; when no endpoint gives one the result is null and nothing is cached |
| MusicCards.SiteEndpoints | src/js/components/music-card-generator.js:118-131 | with the site's two endpoints, a channel URL is sent to noembed and to nothing else, and any other URL goes to YouTube first |
| MusicCards.YouTubeEndpointMatches | src/js/components/music-card-generator.js:20 | the first endpoint is YouTube's oEmbed endpoint |
| MusicCards.NoembedEndpointDoesNot | src/js/components/music-card-generator.js:21 | the fallback endpoint is not YouTube's, so channels may use it |
| MusicCards.Selection | src/js/components/music-card-generator.js:33-60 | the lists kept hold only valid artists and songs, and `playlists` is always truthy (`|| []`) |
| MusicCards.PlaylistsRendered | src/js/components/music-card-generator.js:84 | the playlists section renders for a non-empty array or string, never for null, a boolean or a number |
| MusicCards.FailureFallsBack | src/js/components/music-card-generator.js:56-60 | any load or check failure gives four empty lists, and no playlists section |
| MusicCards.ValidDataKept | src/js/components/music-card-generator.js:47-50 | valid data is kept as is; a missing or falsy `playlists` becomes `[]` and is not rendered |
| MusicCards.MusicCardGenerator.constructor | src/js/components/music-card-generator.js:11-26 | empty lists, the two endpoints in order, and a `music_data` cache of fifteen minutes |
| MusicCards.MusicCardGenerator.Init | src/js/components/music-card-generator.js:31-60 | the data afterwards is the selection of the load |
| MusicCards.MusicCardGenerator.LoadFallbackData | src/js/components/music-card-generator.js:96-103 | the four lists become empty |
| MusicCards.MusicCardGenerator.FetchMetadata | src/js/components/music-card-generator.js:110-159 | the result, the storage afterwards, the requests sent (endpoint plus encoded URL) and the answers consumed are those of the metadata lookup |
| MusicCards.MusicCardGenerator.TryEndpoints | src/js/components/music-card-generator.js:117-158 | the endpoint loop returns the first accepted answer and sends exactly the requests of the endpoints it asked |
| MusicCards.ShownItems | src/js/components/music-card-generator.js:399 | on mobile a list shows its first four items at most, on desktop all of them, always as a prefix of the list |
| MusicCards.VideoThumbnail | src/js/components/music-card-generator.js:193-200 | an address that is not a YouTube video thumbnail, or has none of the three large sizes, is kept as it is |
| MusicCards.VideoThumbnailAt | src/js/components/music-card-generator.js:194-199 | a YouTube video thumbnail gets `/mqdefault.jpg` exactly in place of its leftmost large-size suffix |
| MusicCards.PlaylistThumbnail | src/js/components/music-card-generator.js:499-503 | an address that is not a YouTube video thumbnail is kept as it is |
| MusicCards.PlaylistThumbnailAt | src/js/components/music-card-generator.js:499-503 | a YouTube playlist thumbnail gets `/mqdefault.jpg` in place of its leftmost size suffix, the default size included |
| MusicCards.ChannelThumbnail | src/js/components/music-card-generator.js:267-272 | an address off YouTube's image host is kept as it is |
| MusicCards.ChannelThumbnailAt | src/js/components/music-card-generator.js:269-272 | a YouTube channel image gets `=s250` in place of its leftmost `=s<digits>`, however many digits it had |
| MusicCards.VideoTitle | src/js/components/music-card-generator.js:410-411 | the fallback title is "Unknown Song" or a non-empty id made of word characters and hyphens that follows `watch?v=` in the URL |
| MusicCards.VideoTitleLeftmost | src/js/components/music-card-generator.js:410-411 | for any URL, the title is the id after the leftmost `watch?v=` that is followed by an id, an earlier bare `watch?v=` being passed over |
| MusicCards.VideoTitleWithoutId | src/js/components/music-card-generator.js:410-411 | a URL in which no `watch?v=` is followed by an id gives "Unknown Song" |
| MusicCards.VideoTitleFindsId | src/js/components/music-card-generator.js:410-411 | a URL whose first `watch?v=` is followed by an id, then a character outside the id class, yields exactly that id |
| MusicCards.PlaceholdersOffYtimg | src/js/components/music-card-generator.js:410-416 | neither placeholder thumbnail is on YouTube's image host, so the thumbnail rewrite keeps both |
| MusicCards.ThumbnailThrows | src/js/components/music-card-generator.js:192-194 | building a song card throws when `thumbnail_url` is truthy but not a string |
| MusicCards.SongCard | src/js/components/music-card-generator.js:404-427 | a song card never shows an empty title. Without truthy metadata, or when building the card throws, it is the fallback card titled with the video id; otherwise it shows the metadata's title or "Unknown Title", and the medium-quality rewrite of `thumbnail_url`, or the placeholder when there is none |
| MusicCards.MergeTitle | src/js/components/music-card-generator.js:579-589 | a truthy fetched title replaces the playlist's title, and every other field is kept; otherwise the playlist is unchanged |

## Left out

- The DOM: elements, classes, attributes, the document fragment and the
  `onerror` handlers of images are not modelled. A container is reduced to
  the view it shows and the list of views put in it.
- Concurrency: the `Promise.all` of the card renderers, and the `async`
  interleaving of the page's sections. Each lookup is modelled as
  sequential.
- The orchestration of `renderArtistCards`, `renderMusicCards` and
  `renderPlaylistCards` beyond what their cards show, and the grid classes.
  The parts that are modelled are `ShownItems`, `SongCard`, the thumbnail
  rewrites and `MergeTitle`.
- Logging (`console.*`) and `Utils.handleApiError`: they have no effect on
  state.
- `DeviceDetector.isMobileDevice` is an input (`isMobile`).
- Time is a parameter. `Date.now()` at a read and at a later write are two
  parameters (`readTime`/`now` and `writeTime`).
- `wait(ms)` is recorded, not slept.
- The network is a script of outcomes. A script that has run out answers
  with a transport error. A body that `response.json()` cannot parse is
  `None`.
- The data files' requests in `init` are inputs: one `Outcome` each.
- `getItem` itself throwing (storage disabled) is not modelled. The source
  catches it and returns null, like a miss.
- Cache.CacheManager.Get: stored text that is not a well-formed
  `{data, timestamp}` entry is modelled as a miss that leaves storage
  unchanged. In the source, `Date.now() - timestamp` converts the
  timestamp to a number first. A timestamp that becomes NaN (missing, a
  non-numeric string, an object) makes the age test false, so the source
  returns the item's `data` field (possibly `undefined`). A timestamp that
  becomes a number (`null`, a boolean, `""`, a numeric string, `[]`,
  `[n]`) is compared like a real one: the source returns `data` when it is
  fresh and deletes the item and returns null when it is stale. The model
  neither returns such data nor deletes such items.
- GitHub.GitHubFetcher.GetCachedRepos: the same simplification as
  `Cache.CacheManager.Get`, for malformed stored text.
- GitHub.GitHubFetcher.ShowFreshRepos: the source compares the
  `JSON.stringify` texts of the cached and the fresh lists; the model
  compares the values. Equal values with differently ordered keys would be
  re-rendered by the source.
- MusicCards.SongCard: a truthy `thumbnail_url` that is an array is counted as throwing, so the fallback card is shown. In the source an array has `includes`, so the card is built with the metadata's title and the array turned into text as its image; that path is not modelled.
- MusicCards.PlaylistsRendered: `this.playlists.length > 0` is modelled for numeric lengths only. A playlists object whose own `length` is a string that JavaScript would convert to a positive number, or `true`, or an array such as `[5]`, passes `> 0` in the source but is counted as not rendered.
- Json.JsLength: a string's length is counted in characters, where JavaScript counts UTF-16 units (`"😀".length` is 2). The two agree on whether a string is empty, which is all the modelled code tests. A Dafny string cannot hold a lone surrogate, so the URIError `encodeURIComponent` raises on one is not modelled either.
- Hobbies.CardOf: `classList.add` ignores a duplicate class. The card keeps
  every accepted token in order, duplicates included.
- MusicCards.MergeTitle: a playlist is modelled as an object (a map).
  Spreading a playlist that is not an object is not modelled.
- MusicCards.ChannelThumbnail: takes the thumbnail as a string. An artist
  whose `thumbnail` is a truthy non-string makes `createChannelCard` throw
  and get the placeholder card; that path is not modelled.
- MusicCards.PlaylistThumbnail: takes the thumbnail as a string. A
  playlist whose `thumbnail` is a truthy non-string throws twice (the card
  and its fallback), and the section shows its error message; that path is
  not modelled.
- The starfield, the music player, the UI helpers, `utils.js`, the device
  detector, `config.js` (its URL is the constant `ReposUrl`), `main.js` and
  the page entry points are not part of this model.
