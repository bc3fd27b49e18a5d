# SongTrybe TV: YouTube metadata cache and client, in Dafny

This project models two sides of SongTrybe TV's YouTube video metadata path.

The server side is a Firebase Cloud Functions module (`songtrybe-tv-functions/src/index.ts`).
It has three entry points:

- the callable `getYouTubeVideosMetadata` answers a request for up to 100 video ids from the
  Firestore collection `youtubeVideoCache`, treating a record as fresh for 29 days;
- ids that are missing or stale are fetched from the YouTube Data API in batches of 50 and
  written back;
- two scheduled sweeps refresh up to 50 records older than 24 days and delete up to 100
  records older than 29 days.

The client side is the Android TV app's Kotlin code:

- `YouTubeUtils` (video-id extraction from URLs, thumbnail URLs, duration formatting and parsing);
- the `YouTubeVideo` model family;
- `YouTubeRepository`, which decodes the callable's untyped response;
- `MusicianMapper` (Firestore document to `Musician`);
- the search and distinct-value queries of `MusicianRepository`;
- the two view models that use them: the home screen's genre rails and the musician detail screen.

Layout, one module per file:

| module | models |
|---|---|
| `Wrappers`, `Text`, `Lists`, `Sorting` | Option/Result, decimal text, 32-bit wrap-around, ASCII lower-casing, lexicographic order, Kotlin's `take`/`filter`/`distinct`/`sorted`/`sortedByDescending` |
| `DurationGrammar` | the `PT(\d+H)?(\d+M)?(\d+S)?` match shared by both duration parsers |
| `CacheModel` | `index.ts` records, `parseDuration`, `getBestThumbnailUrl`, `updateCache`'s record, the response view |
| `CacheStore` | the Firestore collection as a class over a map |
| `Upstream` | `fetchVideoMetadataFromYouTube` (batching loop) |
| `MetadataService` | the callable handler and the two sweeps |
| `YouTubeUtils`, `VideoModel` | `YouTubeUtils.kt`, `YouTubeVideo.kt` |
| `Dynamic`, `YouTubeRepository` | Kotlin `Any?` values; `YouTubeRepository.kt` |
| `Musicians`, `MusicianMapper`, `MusicianRepository` | `Musician.kt`, `MusicianMapper.kt`, the pure parts of `MusicianRepository.kt` |
| `HomeViewModel`, `MusicianDetailViewModel` | the two view models as classes with a state field |
| `Agreement` | properties that relate the server and the client |

Modelling choices:

- **External calls are inputs.** Firestore reads, the YouTube API, the Firebase callable, the
  clock and the repositories the view models call are parameters:
  - `Api` is a function from a batch to its outcome;
  - `Callable` is a function from the id list to the call's outcome;
  - `now` is the instant;
  - `readFails`, `queryFails` and `commitFails` are the store faults.
- **Exceptions are explicit results.**
  - A view model's `try` block that throws becomes an `escaped` message input, or a `Failure`
    of the fetched feeds.
  - The callable's `HttpsError`s are `Failure` values.
- **Integer width is explicit.**
  - Kotlin `Int` arithmetic wraps through `Text.Wrap32`.
  - `as? Long` accepts only values the platform decodes as `Long`. The callable's JSON numbers
    arrive as `Int` when they fit, else as `Long` (`Agreement.WireNumber`).
- **State flows record their writes.** Each view model's `MutableStateFlow` is a `uiState`
  field plus `history`, the list of every value written. A launched coroutine runs to
  completion before the next call.

Four behaviours of the code worth knowing:

- `updateCache` writes the whole record with `set`, without merging. A refresh whose item has
  no statistics therefore drops the stats an earlier record held (`CacheModel.OverwriteDropsStats`).
- Both the hit path and the write path call `getBestThumbnailUrl` on the stored, flattened
  thumbnail record. That record has no `maxres.url`/`high.url`/... shape, so every served
  record carries `https://img.youtube.com/vi//hqdefault.jpg`, a URL with an empty video id
  (`CacheModel.FlatThumbnailsGiveEmptyIdUrl`, `MetadataService.ServedThumbnails`). On the
  client, `thumbnailUrl` is that URL too (`Agreement.CachedVideoThumbnailOnClient`).
- A count without digits is cached as NaN. JSON cannot carry NaN, so a response holding such a
  video fails as a whole, and the client shows none of its videos
  (`Agreement.UnencodableResponseShowsNothing`).
- The two duration parsers agree only while the total fits a Kotlin `Int`; above it the
  client's value wraps (`Agreement.DurationParsersDisagreeAboveIntRange`).

## Model

| member | source | states |
|---|---|---|
| Text.LongRoundTrip | songtrybe-tv-app/app/src/main/java/com/songtrybe/tv/data/mapper/MusicianMapper.kt:63 | every Long's decimal text reads back through `toLongOrNull` as the same Long |
| Text.Wrap32 | songtrybe-tv-app/app/src/main/java/com/songtrybe/tv/util/youtube/YouTubeUtils.kt:87 | Kotlin Int arithmetic: the result lies in Int range, is congruent to the exact value modulo 2^32, and equals it when it fits |
| Text.Lower | songtrybe-tv-app/app/src/main/java/com/songtrybe/tv/data/repository/MusicianRepository.kt:120 | `lowercase()` keeps the length and maps each character through the ASCII case mapping |
| Text.LexLessTotal | songtrybe-tv-app/app/src/main/java/com/songtrybe/tv/data/repository/MusicianRepository.kt:138 | the string order `sorted()` uses is total on distinct strings |
| Text.LexLessTransitive | songtrybe-tv-app/app/src/main/java/com/songtrybe/tv/data/repository/MusicianRepository.kt:138 | the string order is transitive |
| Text.LexLessAsymmetric | songtrybe-tv-app/app/src/main/java/com/songtrybe/tv/data/repository/MusicianRepository.kt:138 | the string order is asymmetric, hence a strict order |
| Lists.Take | songtrybe-tv-app/app/src/main/java/com/songtrybe/tv/ui/screens/HomeViewModel.kt:47 | `take(n)` is the prefix of length min(n, size) |
| Lists.Filter | songtrybe-tv-app/app/src/main/java/com/songtrybe/tv/ui/screens/HomeViewModel.kt:46 | `filter` keeps exactly the elements satisfying the predicate |
| Lists.FilterIsSubsequence | songtrybe-tv-app/app/src/main/java/com/songtrybe/tv/data/repository/MusicianRepository.kt:122-125 | `filter` keeps the survivors in their original order |
| Lists.TakeOfSubsequence | songtrybe-tv-app/app/src/main/java/com/songtrybe/tv/data/repository/MusicianRepository.kt:125 | taking a prefix of an order-preserving selection stays order-preserving |
| Lists.Distinct | songtrybe-tv-app/app/src/main/java/com/songtrybe/tv/ui/screens/MusicianDetailViewModel.kt:51 | `distinct()` has no duplicates and the same elements as its input |
| Lists.DistinctKeepsFirstOccurrenceOrder | songtrybe-tv-app/app/src/main/java/com/songtrybe/tv/ui/screens/MusicianDetailViewModel.kt:51 | `distinct()` lists elements in the order of their first occurrence |
| Lists.Flatten | songtrybe-tv-app/app/src/main/java/com/songtrybe/tv/data/repository/MusicianRepository.kt:148 | `flatMap` holds exactly the elements of the inner lists |
| Sorting.SortStrings | songtrybe-tv-app/app/src/main/java/com/songtrybe/tv/data/repository/MusicianRepository.kt:138 | `sorted()` returns an ascending permutation of its input |
| Sorting.SortDistinctStrictlyAscending | songtrybe-tv-app/app/src/main/java/com/songtrybe/tv/data/repository/MusicianRepository.kt:137-138 | sorting a duplicate-free list gives a strictly ascending one |
| Sorting.SortByDescending | songtrybe-tv-app/app/src/main/java/com/songtrybe/tv/ui/screens/HomeViewModel.kt:49 | `sortedByDescending` keeps the length and orders by non-increasing key |
| Sorting.SortByDescendingPermutes | songtrybe-tv-app/app/src/main/java/com/songtrybe/tv/ui/screens/HomeViewModel.kt:49 | `sortedByDescending` is a permutation |
| Sorting.SortByDescendingStable | songtrybe-tv-app/app/src/main/java/com/songtrybe/tv/ui/screens/HomeViewModel.kt:49 | `sortedByDescending` is stable: elements with equal keys keep their relative order |
| DurationGrammar.Group | songtrybe-tv-functions/src/index.ts:39 | an optional `(\d+)U` group: the digits taken are all digits, and either nothing is consumed or exactly digits plus the unit letter are |
| DurationGrammar.MatchDuration | songtrybe-tv-functions/src/index.ts:39-40 | the duration pattern matches exactly when the text contains `PT`, and every captured group is a digit string |
| DurationGrammar.MatchIsoText | songtrybe-tv-functions/src/index.ts:39 | on `PT[nH][nM][nS]` text the match captures exactly the three written numbers |
| DurationGrammar.GroupDigitsValue | songtrybe-tv-functions/src/index.ts:42-44 | a captured group reads back as its number, an absent one as 0 |
| CacheModel.ParseDuration | songtrybe-tv-functions/src/index.ts:38-47 | text without `PT` parses to 0 |
| CacheModel.ParseDurationOfIsoText | songtrybe-tv-functions/src/index.ts:38-47 | `PT[hH][mM][sS]` parses to h*3600 + m*60 + s, absent parts counting 0 |
| CacheModel.ParseDurationMinutesSeconds | songtrybe-tv-functions/src/index.ts:38-47 | `PT3M12S` is 192 seconds |
| CacheModel.ParseDurationZero | songtrybe-tv-functions/src/index.ts:112-113 | the default `PT0S` is 0 seconds |
| CacheModel.ParseDurationAllGroups | songtrybe-tv-functions/src/index.ts:38-47 | `PT1H2M3S` is 3723 seconds |
| CacheModel.GetBestThumbnailUrl | songtrybe-tv-functions/src/index.ts:52-58 | the first truthy of maxres, high, medium and default `url`, else the hqdefault URL built from `videoId`; never falsy |
| CacheModel.FlatThumbnailsGiveEmptyIdUrl | songtrybe-tv-functions/src/index.ts:114-119 | on the stored flattened thumbnails the result is always the hqdefault URL with an empty id |
| CacheModel.Or | songtrybe-tv-functions/src/index.ts:109-118 | `x \|\| d` gives x when it is a non-empty string and d otherwise |
| CacheModel.ParseCount | songtrybe-tv-functions/src/index.ts:126-127 | `parseInt` of a digit string is its decimal value |
| CacheModel.Normalize | songtrybe-tv-functions/src/index.ts:101-130 | `updateCache`'s record is keyed by the id and stamped with the fetch instant; title, channel, thumbnails and duration text take the item's value or their defaults (`Untitled Video`, empty, `PT0S`); the publish date is the item's, or now when it is absent; `durationSeconds` is the parse of `durationIso`; stats are present exactly when the item has a non-empty view or like count, hold `parseInt` of each count (missing counting as "0"), and share the stamp with `statsFetchedAt` |
| CacheModel.NormalizeDefaults | songtrybe-tv-functions/src/index.ts:102-121 | an item with nothing in it caches as `Untitled Video`, empty channel, published now, `PT0S`/0, empty thumbnails and no stats |
| CacheModel.NormalizeSnippetFallbacks | songtrybe-tv-functions/src/index.ts:109-111 | a snippet without title caches as `Untitled Video`; a date at the epoch is kept, only an absent one becomes now |
| CacheModel.OverwriteDropsStats | songtrybe-tv-functions/src/index.ts:133-135 | the `set` replaces the record, so stats held before vanish when the new item has none |
| CacheModel.ViewOf | songtrybe-tv-functions/src/index.ts:185-197 | a served record carries the stored title, channel, publish time and duration, the empty-id thumbnail URL, and the stored view and like counts when stats exist, neither count otherwise |
| CacheModel.Placeholder | songtrybe-tv-functions/src/index.ts:229-237 | a video upstream did not return is served as `Video` with an empty channel, the hqdefault URL of its own id, duration 0, publish time now and no counts |
| CacheStore.Store.constructor | songtrybe-tv-functions/src/index.ts:6-10 | the collection starts with the given documents |
| CacheStore.Store.Get | songtrybe-tv-functions/src/index.ts:174-178 | a read finds a document exactly when one is stored under the id, and returns it |
| CacheStore.Store.Set | songtrybe-tv-functions/src/index.ts:133-135 | `set` replaces the document under the id and changes nothing else |
| CacheStore.Store.Delete | songtrybe-tv-functions/src/index.ts:285 | `delete` removes the id and changes nothing else |
| CacheStore.Store.QueryOlderThan | songtrybe-tv-functions/src/index.ts:263-266 | `where lastFetchedAt < t .limit(n)`: at most n distinct stored ids, each older than t, and if fewer than n then all of them |
| CacheStore.Store.DeleteAll | songtrybe-tv-functions/src/index.ts:323-328 | a committed batch removes exactly the selected ids |
| CacheStore.Store.UpdateCache | songtrybe-tv-functions/src/index.ts:101-138 | `updateCache` stores and returns the normalised record under the id and changes nothing else |
| Upstream.BatchesShape | songtrybe-tv-functions/src/index.ts:72-73 | the ids are split into ceil(n/50) non-empty slices of at most 50 whose concatenation is the input |
| Upstream.FetchFoldKeys | songtrybe-tv-functions/src/index.ts:82-87 | the results map holds exactly the ids carried by some returned item, each mapped to a returned item with that id |
| Upstream.FetchVideoMetadata | songtrybe-tv-functions/src/index.ts:63-96 | no key fails with `failed-precondition` and sends nothing; otherwise every batch is sent in order and the map folds all returned items, a failing batch contributing none |
| MetadataService.Misses | songtrybe-tv-functions/src/index.ts:172-206 | the ids needing a refresh are exactly the requested ids that are absent, stale or unreadable |
| MetadataService.Response | songtrybe-tv-functions/src/index.ts:167-243 | the response has exactly the requested ids as keys |
| MetadataService.StoreAfterAt | songtrybe-tv-functions/src/index.ts:211-241 | after the write-back a document exists for an id iff it existed or it was a miss returned upstream; returned misses hold the normalised record, other documents are untouched |
| MetadataService.CheckCache | songtrybe-tv-functions/src/index.ts:172-208 | the cache pass collects the misses and answers each fresh hit with its view |
| MetadataService.WriteBack | songtrybe-tv-functions/src/index.ts:211-241 | the write-back leaves the store as `StoreAfter` and answers every miss with the fresh view or a placeholder |
| MetadataService.GetYouTubeVideosMetadata | songtrybe-tv-functions/src/index.ts:143-245 | a missing or non-array field, or over 100 ids, fails with `invalid-argument` and touches nothing; an empty list answers `{}`; all hits answer from the cache without a call; a miss with no key fails with `failed-precondition`; otherwise the misses go upstream in batches of 50 and the store and response are the write-back's |
| MetadataService.ServedThumbnails | songtrybe-tv-functions/src/index.ts:185-237 | every hit or refreshed id is served the empty-id thumbnail URL; only a placeholder names its own video |
| MetadataService.TtlBoundary | songtrybe-tv-functions/src/index.ts:183 | a record aged TTL-1 ms is a hit; one aged exactly TTL is a miss yet not old enough for the cleanup sweep; one strictly older than TTL is never a hit, whatever reads fail |
| MetadataService.SecondRequestAllHits | songtrybe-tv-functions/src/index.ts:172-241 | once every miss was returned upstream, repeating the request at the same instant finds no miss |
| MetadataService.SecondRequestSameResponse | songtrybe-tv-functions/src/index.ts:172-241 | and that repeated request is answered with exactly the first response |
| MetadataService.RefreshAfterAt | songtrybe-tv-functions/src/index.ts:279-287 | after a refresh a selected id holds the fresh record if upstream returned it and is deleted otherwise; unselected documents are untouched |
| MetadataService.RefreshPopularYouTubeMetadata | songtrybe-tv-functions/src/index.ts:251-296 | selects up to 50 records older than 24 days; a failing query, an empty selection or a missing key changes nothing; otherwise every selected id is refreshed or deleted |
| MetadataService.CleanupExpiredCache | songtrybe-tv-functions/src/index.ts:302-334 | deletes exactly the up to 100 selected records older than the TTL; a failing query or commit deletes nothing |
| YouTubeUtils.ExtractYouTubeId | songtrybe-tv-app/app/src/main/java/com/songtrybe/tv/util/youtube/YouTubeUtils.kt:9-25 | null exactly when no pattern matches anywhere; otherwise the first pattern in list order that matches decides, and the id is the 11 `[A-Za-z0-9_-]` characters after that pattern's leftmost match |
| YouTubeUtils.ExtractPrefersEarlierPattern | songtrybe-tv-app/app/src/main/java/com/songtrybe/tv/util/youtube/YouTubeUtils.kt:18-22 | the first pattern in list order that matches decides the id |
| YouTubeUtils.MobilePatternSubsumed | songtrybe-tv-app/app/src/main/java/com/songtrybe/tv/util/youtube/YouTubeUtils.kt:10-14 | the `m.youtube.com` pattern never decides: any URL it matches is matched by the `watch?v=` pattern first |
| YouTubeUtils.ExtractShortLink | songtrybe-tv-app/app/src/main/java/com/songtrybe/tv/util/youtube/YouTubeUtils.kt:11 | a `youtu.be/<id>` link yields that id |
| YouTubeUtils.GetThumbnailUrl | songtrybe-tv-app/app/src/main/java/com/songtrybe/tv/util/youtube/YouTubeUtils.kt:27-35 | the URL is the image host, the id and the quality's file name |
| YouTubeUtils.ThumbnailUrlInjective | songtrybe-tv-app/app/src/main/java/com/songtrybe/tv/util/youtube/YouTubeUtils.kt:27-35 | distinct (id, quality) pairs give distinct URLs |
| YouTubeUtils.GetBestThumbnailUrl | songtrybe-tv-app/app/src/main/java/com/songtrybe/tv/util/youtube/YouTubeUtils.kt:37-39 | the best thumbnail is `maxresdefault.jpg` of the id |
| YouTubeUtils.GetFallbackThumbnailUrl | songtrybe-tv-app/app/src/main/java/com/songtrybe/tv/util/youtube/YouTubeUtils.kt:41-43 | the fallback thumbnail is `hqdefault.jpg` of the id |
| YouTubeUtils.FormatDurationFields | songtrybe-tv-app/app/src/main/java/com/songtrybe/tv/util/youtube/YouTubeUtils.kt:67-76 | a non-negative duration formats as `h:mm:ss` when it reaches an hour, else `m:ss` |
| YouTubeUtils.FormatDurationReadBack | songtrybe-tv-app/app/src/main/java/com/songtrybe/tv/util/youtube/YouTubeUtils.kt:67-76 | reading the formatted clock text back as base-60 fields gives the seconds again |
| YouTubeUtils.FormatDurationZero | songtrybe-tv-app/app/src/main/java/com/songtrybe/tv/util/youtube/YouTubeUtils.kt:74 | zero formats as `0:00` |
| YouTubeUtils.FormatDurationHourMinuteSecond | songtrybe-tv-app/app/src/main/java/com/songtrybe/tv/util/youtube/YouTubeUtils.kt:73 | 3661 formats as `1:01:01` |
| YouTubeUtils.GroupValue | songtrybe-tv-app/app/src/main/java/com/songtrybe/tv/util/youtube/YouTubeUtils.kt:83-85 | `toIntOrNull() ?: 0`: a group in Int range reads as its value, one beyond it as 0 |
| YouTubeUtils.ParseDurationIso8601 | songtrybe-tv-app/app/src/main/java/com/songtrybe/tv/util/youtube/YouTubeUtils.kt:78-88 | the result is an Int, and text without `PT` gives 0 |
| VideoModel.YouTubeThumbnails.BestUrl | songtrybe-tv-app/app/src/main/java/com/songtrybe/tv/data/model/YouTubeVideo.kt:38-45 | the first non-empty URL by size, largest first; empty only when all four are |
| VideoModel.BestUrlIgnoresSmaller | songtrybe-tv-app/app/src/main/java/com/songtrybe/tv/data/model/YouTubeVideo.kt:38-45 | with a maxres URL present the smaller URLs do not matter |
| VideoModel.Defaults | songtrybe-tv-app/app/src/main/java/com/songtrybe/tv/data/model/YouTubeVideo.kt:6-51 | the declared defaults: empty channel and thumbnail, publish time and duration 0, no counts, zero stats |
| Dynamic.Lookup | songtrybe-tv-app/app/src/main/java/com/songtrybe/tv/data/repository/YouTubeRepository.kt:30-36 | `videoData[key]` finds a value exactly when the key is present, and the value is stored under it |
| Dynamic.LookupDistinct | songtrybe-tv-app/app/src/main/java/com/songtrybe/tv/data/repository/YouTubeRepository.kt:30-36 | a key's first entry is the one found |
| YouTubeRepository.AsString | songtrybe-tv-app/app/src/main/java/com/songtrybe/tv/data/repository/YouTubeRepository.kt:30 | `as? String` succeeds exactly on strings |
| YouTubeRepository.AsLong | songtrybe-tv-app/app/src/main/java/com/songtrybe/tv/data/repository/YouTubeRepository.kt:32 | `as? Long` succeeds exactly on values decoded as Long, not on Int |
| YouTubeRepository.NumberToLong | songtrybe-tv-app/app/src/main/java/com/songtrybe/tv/data/repository/YouTubeRepository.kt:35-36 | `(as? Number)?.toLong()` succeeds exactly on Int and Long values and keeps them |
| YouTubeRepository.NumberToInt | songtrybe-tv-app/app/src/main/java/com/songtrybe/tv/data/repository/YouTubeRepository.kt:33 | `(as? Number)?.toInt()` truncates a Long to its low 32 bits |
| YouTubeRepository.DecodeVideo | songtrybe-tv-app/app/src/main/java/com/songtrybe/tv/data/repository/YouTubeRepository.kt:27-38 | each field is the value under its key when it has the cast's type, else its default (`Video`, empty, 0); the duration is truncated to Int; the counts are the numbers or null |
| YouTubeRepository.GetVideosMetadata | songtrybe-tv-app/app/src/main/java/com/songtrybe/tv/data/repository/YouTubeRepository.kt:11-43 | no ids, a failed call, a non-map response or a non-map entry give the empty map; otherwise the keys are the response's keys and each value is its entry decoded under its key |
| YouTubeRepository.GetVideoMetadata | songtrybe-tv-app/app/src/main/java/com/songtrybe/tv/data/repository/YouTubeRepository.kt:45-48 | the single-video lookup finds a video exactly when the batch call for that id returns it, and then it is that entry |
| MusicianMapper.TextOf | songtrybe-tv-app/app/src/main/java/com/songtrybe/tv/data/mapper/MusicianMapper.kt:14-22 | `get(f)?.toString() ?: ""`: absent or null gives empty, a string gives itself, anything else its `toString` |
| MusicianMapper.Flag | songtrybe-tv-app/app/src/main/java/com/songtrybe/tv/data/mapper/MusicianMapper.kt:24-25 | `as? Boolean ?: false` is true exactly for a stored `true` |
| MusicianMapper.ItemTexts | songtrybe-tv-app/app/src/main/java/com/songtrybe/tv/data/mapper/MusicianMapper.kt:49-54 | `mapNotNull`: `MapsFiltered` — as many texts as non-null items, and position by position the `toString` of the i-th non-null item, in list order (a string being itself) |
| MusicianMapper.ItemTextsKeepStrings | songtrybe-tv-app/app/src/main/java/com/songtrybe/tv/data/mapper/MusicianMapper.kt:49-54 | every string item of the list is among the texts |
| MusicianMapper.ExtractStringList | songtrybe-tv-app/app/src/main/java/com/songtrybe/tv/data/mapper/MusicianMapper.kt:47-57 | a non-list gives the empty list; a list gives, position by position, the texts of its non-null items in list order, and every string item is among them |
| MusicianMapper.ExtractNumber | songtrybe-tv-app/app/src/main/java/com/songtrybe/tv/data/mapper/MusicianMapper.kt:59-68 | Long and Int values are kept, strings go through `toLongOrNull() ?: 0`, anything else is 0 |
| MusicianMapper.ExtractTimestamp | songtrybe-tv-app/app/src/main/java/com/songtrybe/tv/data/mapper/MusicianMapper.kt:70-77 | a Timestamp gives its milliseconds, a Long itself, anything else 0 |
| MusicianMapper.FromDocument | songtrybe-tv-app/app/src/main/java/com/songtrybe/tv/data/mapper/MusicianMapper.kt:10-45 | a document without data maps to null; otherwise the musician has the document id, each text field the text under its schema name, each flag true exactly when stored true, the lists, numbers and instants through their extractors, and the upvote count truncated to Int |
| MusicianMapper.EmptyDocumentDefaults | songtrybe-tv-app/app/src/main/java/com/songtrybe/tv/data/mapper/MusicianMapper.kt:10-45 | an empty document maps to the default musician with its id |
| MusicianMapper.TimestampRoundTrip | songtrybe-tv-app/app/src/main/java/com/songtrybe/tv/data/mapper/MusicianMapper.kt:72 | a stored Timestamp reads back as the milliseconds it was built from |
| MusicianMapper.NumberTextRoundTrip | songtrybe-tv-app/app/src/main/java/com/songtrybe/tv/data/mapper/MusicianMapper.kt:63 | a Long stored as decimal text reads back as itself |
| MusicianMapper.StringListRoundTrip | songtrybe-tv-app/app/src/main/java/com/songtrybe/tv/data/mapper/MusicianMapper.kt:47-57 | a stored list of strings reads back unchanged |
| MusicianMapper.DocumentRoundTrip | songtrybe-tv-app/app/src/main/java/com/songtrybe/tv/data/mapper/MusicianMapper.kt:10-45 | a musician stored field by field under the schema's names maps back to itself |
| MusicianRepository.SearchMusicians | songtrybe-tv-app/app/src/main/java/com/songtrybe/tv/data/repository/MusicianRepository.kt:115-129 | the result is the first min(50, matches) of the musicians whose lower-cased name or genre contains the lower-cased query, in fetched order; with fewer than 50, every match is included |
| MusicianRepository.SearchEmptyQuery | songtrybe-tv-app/app/src/main/java/com/songtrybe/tv/data/repository/MusicianRepository.kt:120-125 | an empty query returns the first 50 fetched musicians |
| MusicianRepository.GetDistinctGenres | songtrybe-tv-app/app/src/main/java/com/songtrybe/tv/data/repository/MusicianRepository.kt:131-142 | strictly ascending, no empty genre, and exactly the non-empty genres of the fetched musicians |
| MusicianRepository.GetDistinctCategories | songtrybe-tv-app/app/src/main/java/com/songtrybe/tv/data/repository/MusicianRepository.kt:144-155 | strictly ascending, no empty category, and exactly the non-empty categories of the fetched musicians |
| MusicianRepository.NothingFetched | songtrybe-tv-app/app/src/main/java/com/songtrybe/tv/data/repository/MusicianRepository.kt:126-153 | a failed fetch (modelled as nothing fetched) gives empty results everywhere |
| HomeViewModel.Grouped | songtrybe-tv-app/app/src/main/java/com/songtrybe/tv/ui/screens/HomeViewModel.kt:45 | `groupBy { genre }`: one group per distinct genre in first-occurrence order, holding that genre's musicians in order |
| HomeViewModel.GroupByGenreIsGrouped | songtrybe-tv-app/app/src/main/java/com/songtrybe/tv/ui/screens/HomeViewModel.kt:45 | the element-by-element grouping fold builds exactly those groups |
| HomeViewModel.KeysOfKept | songtrybe-tv-app/app/src/main/java/com/songtrybe/tv/ui/screens/HomeViewModel.kt:46 | `filterKeys` keeps the keys that pass, in order |
| HomeViewModel.KeptKeys | songtrybe-tv-app/app/src/main/java/com/songtrybe/tv/ui/screens/HomeViewModel.kt:45-46 | after dropping the empty genre the keys are the distinct non-empty genres in first-occurrence order |
| HomeViewModel.KeptValues | songtrybe-tv-app/app/src/main/java/com/songtrybe/tv/ui/screens/HomeViewModel.kt:45-46 | each kept group holds all musicians of its genre |
| HomeViewModel.CapEach | songtrybe-tv-app/app/src/main/java/com/songtrybe/tv/ui/screens/HomeViewModel.kt:47 | `mapValues { take(10) }` keeps the keys and caps each group at its first ten |
| HomeViewModel.Capped | songtrybe-tv-app/app/src/main/java/com/songtrybe/tv/ui/screens/HomeViewModel.kt:44-47 | the capped groups: one per distinct non-empty genre, each the first ten of that genre's musicians |
| HomeViewModel.GenreRails | songtrybe-tv-app/app/src/main/java/com/songtrybe/tv/ui/screens/HomeViewModel.kt:44-51 | at most five rails, ordered by non-increasing size |
| HomeViewModel.RailsAreGroups | songtrybe-tv-app/app/src/main/java/com/songtrybe/tv/ui/screens/HomeViewModel.kt:48-51 | every rail is one of the capped groups |
| HomeViewModel.RailContents | songtrybe-tv-app/app/src/main/java/com/songtrybe/tv/ui/screens/HomeViewModel.kt:44-51 | a rail's key is a non-empty genre of the input, and its musicians are that genre's first ten, in input order |
| HomeViewModel.RailKeysDistinct | songtrybe-tv-app/app/src/main/java/com/songtrybe/tv/ui/screens/HomeViewModel.kt:51 | no two rails share a genre, so `toMap()` loses nothing |
| HomeViewModel.RailTiesKeepOrder | songtrybe-tv-app/app/src/main/java/com/songtrybe/tv/ui/screens/HomeViewModel.kt:49-50 | rails of equal size keep the first-occurrence order of their genres |
| HomeViewModel.RailsAreLargest | songtrybe-tv-app/app/src/main/java/com/songtrybe/tv/ui/screens/HomeViewModel.kt:49-50 | a non-empty genre left out means all five rails are shown and none is smaller than its capped group |
| HomeViewModel.Outcome | songtrybe-tv-app/app/src/main/java/com/songtrybe/tv/ui/screens/HomeViewModel.kt:37-61 | a load ends in Success exactly when no exception escapes the `try` block, carrying the three lists and the rails; otherwise it ends in Error with the exception's message, or `Unknown error occurred` when it has none |
| HomeViewModel.SuccessRails | songtrybe-tv-app/app/src/main/java/com/songtrybe/tv/ui/screens/HomeViewModel.kt:44-58 | a Success state shows at most five rails with distinct genres, largest first, each a genre's first ten musicians |
| HomeViewModel.HomeViewModel.constructor | songtrybe-tv-app/app/src/main/java/com/songtrybe/tv/ui/screens/HomeViewModel.kt:26-31 | the state starts as Loading and `init` loads once: Loading, Loading, then the outcome |
| HomeViewModel.HomeViewModel.LoadContent | songtrybe-tv-app/app/src/main/java/com/songtrybe/tv/ui/screens/HomeViewModel.kt:33-63 | a load writes Loading and then the outcome |
| HomeViewModel.HomeViewModel.Retry | songtrybe-tv-app/app/src/main/java/com/songtrybe/tv/ui/screens/HomeViewModel.kt:65-67 | retry is a fresh load |
| MusicianDetailViewModel.ExtractedIds | songtrybe-tv-app/app/src/main/java/com/songtrybe/tv/ui/screens/MusicianDetailViewModel.kt:49-50 | `mapNotNull { extractYouTubeId }`: exactly the ids of recognised URLs, each a well-formed id |
| MusicianDetailViewModel.ExtractedIdsMapsRecognised | songtrybe-tv-app/app/src/main/java/com/songtrybe/tv/ui/screens/MusicianDetailViewModel.kt:49-50 | `mapNotNull`: the extracted ids are, in order, the ids of the recognised URLs (`MapsFiltered`) |
| MusicianDetailViewModel.ExtractedIdsInUrlOrder | songtrybe-tv-app/app/src/main/java/com/songtrybe/tv/ui/screens/MusicianDetailViewModel.kt:49-50 | `mapNotNull` keeps URL order: the i-th id is the id of the i-th recognised URL |
| MusicianDetailViewModel.VideoIds | songtrybe-tv-app/app/src/main/java/com/songtrybe/tv/ui/screens/MusicianDetailViewModel.kt:49-51 | the requested ids are duplicate-free, well-formed, and exactly those of the recognised URLs |
| MusicianDetailViewModel.VideoIdsInFirstOccurrenceOrder | songtrybe-tv-app/app/src/main/java/com/songtrybe/tv/ui/screens/MusicianDetailViewModel.kt:49-51 | the ids come in the order in which they first appear among the URLs |
| MusicianDetailViewModel.NoVideoIds | songtrybe-tv-app/app/src/main/java/com/songtrybe/tv/ui/screens/MusicianDetailViewModel.kt:49-58 | there is nothing to request exactly when no URL is recognised |
| MusicianDetailViewModel.MetadataRequest | songtrybe-tv-app/app/src/main/java/com/songtrybe/tv/ui/screens/MusicianDetailViewModel.kt:54-58 | the callable is asked exactly when some URL is recognised, and then for the distinct ids |
| MusicianDetailViewModel.Videos | songtrybe-tv-app/app/src/main/java/com/songtrybe/tv/ui/screens/MusicianDetailViewModel.kt:54-58 | no ids give no videos; otherwise the repository's answer, each video under its own id |
| MusicianDetailViewModel.LoadOutcome | songtrybe-tv-app/app/src/main/java/com/songtrybe/tv/ui/screens/MusicianDetailViewModel.kt:40-72 | a thrown error ends in Error with its message or `Failed to load musician`; a missing musician in `Musician not found`; otherwise Success with the musician, the videos and the favourite flag |
| MusicianDetailViewModel.LoadedVideosBelongToMusician | songtrybe-tv-app/app/src/main/java/com/songtrybe/tv/ui/screens/MusicianDetailViewModel.kt:49-67 | a shown video sits under its own id, and a musician without recognised URLs shows none |
| MusicianDetailViewModel.MusicianDetailViewModel.constructor | songtrybe-tv-app/app/src/main/java/com/songtrybe/tv/ui/screens/MusicianDetailViewModel.kt:31-34 | the state starts as Loading with no current musician |
| MusicianDetailViewModel.MusicianDetailViewModel.LoadMusician | songtrybe-tv-app/app/src/main/java/com/songtrybe/tv/ui/screens/MusicianDetailViewModel.kt:36-74 | remembers the id, writes Loading and then the load outcome; the callable is asked exactly on Success with recognised URLs, for the distinct ids |
| MusicianDetailViewModel.MusicianDetailViewModel.Retry | songtrybe-tv-app/app/src/main/java/com/songtrybe/tv/ui/screens/MusicianDetailViewModel.kt:76-78 | before any load nothing happens; afterwards the same musician is loaded again |
| MusicianDetailViewModel.MusicianDetailViewModel.AddFavorite | songtrybe-tv-app/app/src/main/java/com/songtrybe/tv/ui/screens/MusicianDetailViewModel.kt:80-88 | only from Success is the shown musician's id sent; the flag becomes true only when the repository accepts, and nothing else changes |
| MusicianDetailViewModel.MusicianDetailViewModel.RemoveFavorite | songtrybe-tv-app/app/src/main/java/com/songtrybe/tv/ui/screens/MusicianDetailViewModel.kt:90-98 | only from Success is the shown musician's id sent; the flag becomes false only when the repository accepts, and nothing else changes |
| MusicianDetailViewModel.MusicianDetailViewModel.LogRecentlyPlayed | songtrybe-tv-app/app/src/main/java/com/songtrybe/tv/ui/screens/MusicianDetailViewModel.kt:100-110 | a play is logged exactly from Success, with the video id, the shown musician's id and the URL |
| Agreement.DurationParsersAgree | songtrybe-tv-app/app/src/main/java/com/songtrybe/tv/util/youtube/YouTubeUtils.kt:78-88 | server and client parse every duration to the same seconds while the total fits an Int |
| Agreement.DurationParsersDisagreeAboveIntRange | songtrybe-tv-functions/src/index.ts:38-47 | `PT596524H` is 2147486400 s on the server but wraps to -2147480896 on the client |
| Agreement.PlaceholderIsClientFallback | songtrybe-tv-functions/src/index.ts:235 | the placeholder's thumbnail is the client's fallback thumbnail URL for the same id |
| Agreement.ClientThumbnails | songtrybe-tv-app/app/src/main/java/com/songtrybe/tv/data/model/YouTubeVideo.kt:32-37 | the client record of the API thumbnails holds each URL or empty |
| Agreement.BestThumbnailAgrees | songtrybe-tv-functions/src/index.ts:52-58 | on API thumbnails the server's choice is the client's `bestUrl` when one exists, else the empty-id fallback |
| Agreement.CacheLifetimesAgree | songtrybe-tv-app/app/src/main/java/com/songtrybe/tv/data/firebase/FirebaseSchema.kt:59 | client and server use the same 29-day TTL, 2505600000 ms |
| Agreement.WireNumber | songtrybe-tv-app/app/src/main/java/com/songtrybe/tv/data/repository/YouTubeRepository.kt:32-33 | a served number arrives as Int when it fits, else as Long |
| Agreement.ServedVideoDecodes | songtrybe-tv-app/app/src/main/java/com/songtrybe/tv/data/repository/YouTubeRepository.kt:27-38 | the encoder refuses a served view exactly when a count is NaN; otherwise it decodes with its title, channel and thumbnail intact, the duration wrapped to Int, the counts kept, and a publish time in Int range lost to 0 |
| Agreement.DecodeWire | songtrybe-tv-app/app/src/main/java/com/songtrybe/tv/data/repository/YouTubeRepository.kt:27-38 | the client decodes each property the server wrote for a video: texts as sent, the duration wrapped, the counts as written, an Int-range publish time as 0 |
| Agreement.UnencodableResponseShowsNothing | songtrybe-tv-app/app/src/main/java/com/songtrybe/tv/data/repository/YouTubeRepository.kt:39-42 | a response with a NaN count fails the call, and the client shows no video of it |
| Agreement.EncodedResponseDecodes | songtrybe-tv-app/app/src/main/java/com/songtrybe/tv/data/repository/YouTubeRepository.kt:25-38 | a response the encoder accepts reaches the client with each video under its id, decoded from what the server wrote |
| Agreement.CachedVideoThumbnailOnClient | songtrybe-tv-functions/src/index.ts:185-197 | a cached video fails to encode exactly when its stats hold a NaN count; otherwise it reaches the client with the empty-id thumbnail URL |

## Left out

- Firestore, the YouTube Data API, the Firebase callable, the clock and logging are external. The model replaces them with parameters (`Store` contents, `Api`, `Callable`, `now`, the fault inputs) and leaves out `console` output.
- Concurrency is not modelled. `Promise.all` runs the per-id cache reads and write-backs one after another, in request order, and no two calls interleave. Kotlin coroutines each run to completion, so a retry arriving during a load, or `addFavorite` acting on a snapshot a load has replaced, is not modelled.
- The clock is read once per operation. The server reads it several times (`Date.now()` and `Timestamp.now()`); the model uses one `now` for each handler call or sweep.
- Partial write failures are not modelled. A write-back or sweep in which some writes fail and others succeed is left out; a sweep's failures are modelled only as a failing query or commit.
- Floating point is not modelled:
  - `extractNumber`'s Double/Float branch and `rate`'s Double field (stored as an integer);
  - `Number.toInt()`/`toLong()` of a Double;
  - JavaScript numbers beyond 2^53, where `parseInt` and arithmetic lose precision.
- Lower-casing and string ordering cover ASCII only. Unicode case folding and UTF-16 ordering are not modelled.
- Regular expressions are modelled as marker search followed by an 11-character id run. Prefixes that cannot change a match or its capture (`https?://`, `www.`) are not searched for.
- `YouTubeUtils.launchYouTubeVideo` starts Android activities and is not part of this model.
- `MusicianRepository`'s Firestore queries (highlighted, trending, verified, genre grouping, search source and listeners) are inputs: their results are the `fetched` lists and `Feeds`. A query that throws inside the search or distinct functions is modelled as nothing fetched (`NothingFetched`).
- `UserDataRepository` (favourites, recently played) is not part of this model. Its answers are inputs of the detail view model.
- UI screens, navigation and the schedules' cron times are not part of this model.
- StateFlow conflation is not modelled. `history` records every write, including a write of a value equal to the current one, which a collector might never observe.
- MetadataService.GetYouTubeVideosMetadata: the commented-out authentication check is absent from the code and therefore from the model.
- YouTubeUtils.ParseDurationIso8601: proved to return an Int and 0 without `PT`; its exact value is stated through `Agreement.DurationParsersAgree` and `Agreement.DurationParsersDisagreeAboveIntRange` rather than in its own contract.
- Date parsing in `updateCache` is not modelled. An item's `publishedAt` is given as the instant its date text denotes, or as absent when that text is missing or empty; a date text `new Date` cannot parse, which makes `Timestamp.fromDate` throw, is not modelled.
- Agreement.EncodeView: the callable's response encoder (the Firebase Functions library) is not part of this model's sources. It is modelled as writing integers as JSON numbers and leaving undefined properties out. A NaN count, which `parseInt` gives for a count without digits and the cache can store, makes the encoder throw, so the whole call fails.
- CacheModel.ParseCount: models `parseInt` on the count strings the API sends (leading decimal digits); leading whitespace, a sign and a `0x` prefix, which `parseInt` also accepts, are not modelled.
- Text.ToLongOrNull: accepts ASCII digits only; Kotlin's `toLongOrNull` also accepts other Unicode decimal digits, which are not modelled.
- CacheModel.ParseDuration: the contract itself states only the no-match case; the value of a match is stated by `ParseDurationOfIsoText` for text of the `PT[h][m][s]` shape, and text with junk between groups is covered only through `MatchDuration`.
