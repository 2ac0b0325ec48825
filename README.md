# HiAnime extension: the decision layer of episode loading and link resolution

This project models, in Dafny, the sequential decision logic of the HiAnime
anime-source extension (`HiAnime.kt`). Network fetches, HTML selection, JSON
decoding and the foreign extractors are replaced by already-parsed inputs.
What remains is modelled and proved:

- **Classification.** `getType` reads a card's type line as OVA, movie or
  series. `getStatus` reads a status line as ongoing or completed.
- **Cast.** `getActorData` turns a cast entry into an actor record, or into
  nothing. The model keeps its indexed loop and its early `return null`s.
- **Episode list.** `load` takes the anime id from the page path. Its loop
  puts each listed episode in the subbed list, the dubbed list or both, with
  data strings `"sub|" + href` and `"dub|" + href`. The app may hand such a
  string back made absolute, with the site prefix `https://hianime.to/` in
  front. Both forms are covered.
- **Link resolution.** `loadLinks` parses the data string back into
  `dubType`, `epId` and `animeEpisodeId`, keeps the `data-id` of the server
  items of that track and removes duplicates (`distinct()`). For every mirror
  it then:
  - asks the sources API for the fixed servers `hd-1` and `hd-2`, forwarding
    the first manifest URL and every subtitle track;
  - resolves the mirror's intermediary link with the generic extractor;
  - only when that fails, uses the rabbit-stream extractor, dropping links
    whose URL contains `betterstream`;
  - always answers `true`.
- **Video interceptor.** The interceptor adds an `SID` header to segment
  requests. It takes the value from the extension's `sid` table, keyed by the
  Java hash code of the stream link's URL.

The caller's two callbacks are a `Sinks` object whose `links` and `subtitles`
sequences are appended to. The site is a `Site` value. Its total functions
give the parsed answer of each endpoint and extractor for a request:

| function | stands for |
|---|---|
| `serverList` | the server list of an episode id |
| `sources` | the sources API for a query, `None` when the answer does not parse |
| `intermediary` | the intermediary link of a mirror id |
| `extractor` | what `loadExtractor` pushes and whether it reports success |
| `rabbit` | what `extractRabbitStream` pushes |

The sources query carries the anime episode id, the episode id, the server
and the category, but not the mirror id. So the model repeats the same API
results once per mirror, as the code does.

In these points the model follows the code:

- Only the first manifest URL of a server's answer is emitted, not one stream
  per distinct URL.
- Mirrors are deduplicated by `data-id`, not by server name.
- `loadLinks` returns `true` even when nothing was emitted.
- The per-server API loop runs over the fixed list `hd-1`, `hd-2` for every
  mirror. Mirror ids only select the intermediary link.
- Nothing in this file writes `sid`. A fresh extension object has an empty
  table, so the interceptor adds no `SID` header until some other code fills
  the table.
- The intermediary link goes to the generic extractor. The rabbit-stream
  extractor runs only when the generic one reports failure. The blacklist
  filters only the rabbit-stream extractor's links.

## Model

| member | source | states |
|---|---|---|
| Classify.GetType | src/en/zoro/src/eu/kanade/tachiyomi/animeextension/en/zoro/HiAnime.kt:65-68 | OVA exactly when "OVA" or "Special" occurs somewhere in the text, even alongside "Movie". Movie exactly when not OVA and "Movie" occurs. The empty text is a series. |
| Classify.GetStatus | src/en/zoro/src/eu/kanade/tachiyomi/animeextension/en/zoro/HiAnime.kt:70-76 | Ongoing exactly for the text "Currently Airing"; every other text is Completed. |
| Classify.GetTypeStableInContext | src/en/zoro/src/eu/kanade/tachiyomi/animeextension/en/zoro/HiAnime.kt:65-68 | Adding text around a type line keeps an OVA an OVA, and never turns an OVA or a movie into a plain series. |
| Actors.GetActorData | src/en/zoro/src/eu/kanade/tachiyomi/animeextension/en/zoro/HiAnime.kt:43-62 | The loop with early returns gives exactly the declarative result: nothing for an empty list or if any entry lacks a name or image. Otherwise the first entry is the actor, with role "Main" unless a cast text is given, and the second entry, if any, is the voice actor. |
| Actors.LaterEntriesIgnored | src/en/zoro/src/eu/kanade/tachiyomi/animeextension/en/zoro/HiAnime.kt:51-58 | Complete entries after the second do not change the result. |
| Actors.Cast | src/en/zoro/src/eu/kanade/tachiyomi/animeextension/en/zoro/HiAnime.kt:143-146 | `mapNotNull`: an actor record is in the cast exactly when some cast entry yields it, and the cast is no longer than the entries. |
| Actors.CastOfConcat | src/en/zoro/src/eu/kanade/tachiyomi/animeextension/en/zoro/HiAnime.kt:143-146 | The cast of two consecutive parts of the page is the first part's cast followed by the second's. |
| Actors.CastOfPage | src/en/zoro/src/eu/kanade/tachiyomi/animeextension/en/zoro/HiAnime.kt:143-146 | Page order is kept, with exactly one record per entry that yields one: an entry contributes its own record, if any, between the records of the entries before and after it. |
| Episodes.AnimeId | src/en/zoro/src/eu/kanade/tachiyomi/animeextension/en/zoro/HiAnime.kt:111 | The id is a dash-free suffix of the path, preceded by a `-` unless it is the whole path. |
| Episodes.SplitEpisodes | src/en/zoro/src/eu/kanade/tachiyomi/animeextension/en/zoro/HiAnime.kt:116-141 | The sub list is exactly the first min(n, subCount) items in order, each with data "sub\|" + href. It is empty when the count is absent or not positive, or when the list request failed. The dub list follows the same rule independently. Every sub entry's data starts with "sub\|" and every dub entry's with "dub\|". |
| Links.DubType | src/en/zoro/src/eu/kanade/tachiyomi/animeextension/en/zoro/HiAnime.kt:190 | The track is the longest `\|`-free prefix of the data once every "https://hianime.to/" has been removed: it ends at the first `\|`, or is the whole text. |
| Links.EpId | src/en/zoro/src/eu/kanade/tachiyomi/animeextension/en/zoro/HiAnime.kt:191 | The episode id is the longest `=`-free suffix of the tail after the last `\|`: it starts right after the tail's last `=`, or is the whole tail when that has no `=`. |
| Links.AnimeEpisodeId | src/en/zoro/src/eu/kanade/tachiyomi/animeextension/en/zoro/HiAnime.kt:207 | The id is the text after the last `/` up to its last `-`: id, `-` and the text after that `-` rebuild it. It is all of that text when it has no `-`. |
| Links.DubTypeOfEpisodeData | src/en/zoro/src/eu/kanade/tachiyomi/animeextension/en/zoro/HiAnime.kt:190 | Round trip: for data built as tag + "\|" + href with tag "sub" or "dub", with or without the "https://hianime.to/" prefix, the parsed track is the tag. |
| Links.EpIdOfEpisodeData | src/en/zoro/src/eu/kanade/tachiyomi/animeextension/en/zoro/HiAnime.kt:191 | For such data with a `\|`-free href, with or without the prefix, the episode id is the href's text after its last `=`. |
| Links.AnimeEpisodeIdOfEpisodeData | src/en/zoro/src/eu/kanade/tachiyomi/animeextension/en/zoro/HiAnime.kt:207 | For such data whose href ends in a `/`-free segment, with or without the prefix, the anime episode id is that segment's text before its last `-`. |
| Links.SelectServers | src/en/zoro/src/eu/kanade/tachiyomi/animeextension/en/zoro/HiAnime.kt:193-198 | An id is selected exactly when some server item has `data-type` equal to the track and that `data-id`. |
| Links.SelectServersOfConcat | src/en/zoro/src/eu/kanade/tachiyomi/animeextension/en/zoro/HiAnime.kt:197-198 | Selection over two consecutive parts of the server list is the first part's ids followed by the second's. |
| Links.SelectServersOfPage | src/en/zoro/src/eu/kanade/tachiyomi/animeextension/en/zoro/HiAnime.kt:197-198 | One id per matching item, in page order: an item contributes its own `data-id`, if it matches, between the ids of the items before and after it. |
| Links.Distinct | src/en/zoro/src/eu/kanade/tachiyomi/animeextension/en/zoro/HiAnime.kt:203 | `distinct()`: no id twice, and exactly the same set of ids. |
| Links.DistinctKeepsFirstOccurrenceOrder | src/en/zoro/src/eu/kanade/tachiyomi/animeextension/en/zoro/HiAnime.kt:203 | The kept ids appear in the order of their first occurrence in the input. |
| Links.DistinctOfDistinct | src/en/zoro/src/eu/kanade/tachiyomi/animeextension/en/zoro/HiAnime.kt:203 | A list without repetitions is left unchanged, so deduplication is idempotent. |
| Links.Mirrors | src/en/zoro/src/eu/kanade/tachiyomi/animeextension/en/zoro/HiAnime.kt:193-203 | The mirrors have no duplicates. An id is a mirror exactly when the server list of the parsed episode id has an item of the parsed track with that `data-id`. |
| Links.ServerStream | src/en/zoro/src/eu/kanade/tachiyomi/animeextension/en/zoro/HiAnime.kt:212-223 | A server yields a stream exactly when its answer parsed and lists a source. The stream uses only the first source's URL and is labelled "HiAnime " + upper(server) + " " + upper(track). |
| Links.TrackSubtitles | src/en/zoro/src/eu/kanade/tachiyomi/animeextension/en/zoro/HiAnime.kt:225-234 | Every track becomes (label or "", file), in order, one for one. |
| Links.ServerSubtitles | src/en/zoro/src/eu/kanade/tachiyomi/animeextension/en/zoro/HiAnime.kt:212-235 | A parsed answer forwards all its tracks, whether or not it listed sources. An unparsed answer forwards none. |
| Links.Allowed | src/en/zoro/src/eu/kanade/tachiyomi/animeextension/en/zoro/HiAnime.kt:252-254 | A link passes the filter exactly when its URL does not contain "betterstream". |
| Links.FallbackLinks | src/en/zoro/src/eu/kanade/tachiyomi/animeextension/en/zoro/HiAnime.kt:239-259 | If the generic extractor succeeded, only its links are delivered and the rabbit-stream extractor is not consulted. A link is delivered exactly when the generic extractor pushed it, or, after a failure, the rabbit-stream extractor produced it with an allowed URL. |
| Links.FallbackSubtitles | src/en/zoro/src/eu/kanade/tachiyomi/animeextension/en/zoro/HiAnime.kt:239-259 | The rabbit-stream extractor's subtitles follow the generic extractor's only when the generic one failed. They are not filtered. |
| Links.ApiInServerOrder | src/en/zoro/src/eu/kanade/tachiyomi/animeextension/en/zoro/HiAnime.kt:208-209 | The API servers are asked in the order "hd-1", then "hd-2", for streams and for subtitles. |
| Links.ApiLinksOrigin | src/en/zoro/src/eu/kanade/tachiyomi/animeextension/en/zoro/HiAnime.kt:208-236 | A stream comes from the API part exactly when one of the asked servers yields it. |
| Links.OneServerScenario | src/en/zoro/src/eu/kanade/tachiyomi/animeextension/en/zoro/HiAnime.kt:208-236 | One subbed mirror: "hd-1" has sources and "hd-2" none, and the generic extractor succeeds without streams. Exactly one stream is delivered, "HiAnime HD-1 SUB", with hd-1's first URL. |
| Links.ApiLinksRepeatPerMirror | src/en/zoro/src/eu/kanade/tachiyomi/animeextension/en/zoro/HiAnime.kt:203-236 | The API loop does not depend on the mirror id, so every API stream is delivered at least once per distinct mirror. |
| Links.AllLinksOrigin | src/en/zoro/src/eu/kanade/tachiyomi/animeextension/en/zoro/HiAnime.kt:203-260 | A stream is delivered exactly when it comes from the API part (with at least one mirror) or from the intermediary link of some mirror. With no mirrors nothing is delivered. |
| Links.RabbitLinkDelivered | src/en/zoro/src/eu/kanade/tachiyomi/animeextension/en/zoro/HiAnime.kt:247-254 | Take a rabbit-stream link of a mirror whose generic extractor failed, not also produced elsewhere. It reaches the caller exactly when its URL lacks "betterstream". |
| Links.Sinks.Stream | src/en/zoro/src/eu/kanade/tachiyomi/animeextension/en/zoro/HiAnime.kt:188 | The stream callback appends one link and leaves the subtitles alone. |
| Links.Sinks.Subtitle | src/en/zoro/src/eu/kanade/tachiyomi/animeextension/en/zoro/HiAnime.kt:187 | The subtitle callback appends one file and leaves the links alone. |
| Links.ForwardTracks | src/en/zoro/src/eu/kanade/tachiyomi/animeextension/en/zoro/HiAnime.kt:225-234 | The track loop appends exactly the converted tracks to the subtitles. |
| Links.ForwardLinks | src/en/zoro/src/eu/kanade/tachiyomi/animeextension/en/zoro/HiAnime.kt:240-258 | The links an extractor pushes are appended in order. Through the blacklist lambda, only the allowed ones are appended. |
| Links.ForwardSubtitles | src/en/zoro/src/eu/kanade/tachiyomi/animeextension/en/zoro/HiAnime.kt:240-258 | The subtitles an extractor pushes are appended in order, unfiltered. |
| Links.EmitServer | src/en/zoro/src/eu/kanade/tachiyomi/animeextension/en/zoro/HiAnime.kt:211-235 | One server's pass appends its stream, if any, and its subtitles. |
| Links.EmitApiSources | src/en/zoro/src/eu/kanade/tachiyomi/animeextension/en/zoro/HiAnime.kt:208-236 | The server loop appends exactly the API streams and subtitles. |
| Links.EmitFallback | src/en/zoro/src/eu/kanade/tachiyomi/animeextension/en/zoro/HiAnime.kt:239-259 | The intermediary-link step appends exactly the fallback streams and subtitles. |
| Links.EmitMirror | src/en/zoro/src/eu/kanade/tachiyomi/animeextension/en/zoro/HiAnime.kt:204-259 | One mirror appends the API part, then the intermediary-link part. |
| Links.EmitMirrors | src/en/zoro/src/eu/kanade/tachiyomi/animeextension/en/zoro/HiAnime.kt:203-260 | The mirrors are handled one after another, each appending its part. |
| Links.LoadLinks | src/en/zoro/src/eu/kanade/tachiyomi/animeextension/en/zoro/HiAnime.kt:184-262 | The answer is always true. The callbacks receive exactly the streams and subtitles of the distinct mirrors of the parsed request. |
| Interceptor.HashCode | src/en/zoro/src/eu/kanade/tachiyomi/animeextension/en/zoro/HiAnime.kt:279 | `String.hashCode`: a signed 32-bit value congruent to Java's 31-polynomial over the characters. |
| Interceptor.HiAnime.constructor | src/en/zoro/src/eu/kanade/tachiyomi/animeextension/en/zoro/HiAnime.kt:24 | The session table starts empty, so no URL has a session id. |
| Interceptor.HiAnime.SidFor | src/en/zoro/src/eu/kanade/tachiyomi/animeextension/en/zoro/HiAnime.kt:279 | A session id exists exactly when the table has a non-null entry under the URL's hash code. |
| Interceptor.HiAnime.Intercept | src/en/zoro/src/eu/kanade/tachiyomi/animeextension/en/zoro/HiAnime.kt:264-291 | URL, method and body never change. Without a `.ts` ending, with method OPTIONS, or with "betterstream" in the URL, the request passes unchanged. Otherwise an "SID" header is appended exactly when the stream link's URL (not the request's) has a session id. No other header changes. |
| Interceptor.SidSharedOnHashCollision | src/en/zoro/src/eu/kanade/tachiyomi/animeextension/en/zoro/HiAnime.kt:279 | The table is keyed by hash code, so "Aa" and "BB", which collide, get the same session id. |
| Text.RemoveAll | src/en/zoro/src/eu/kanade/tachiyomi/animeextension/en/zoro/HiAnime.kt:190 | `replace(pat, "")` never lengthens the text, leaves it unchanged when the pattern does not occur, and shortens it by at least the pattern's length when it does. |
| Text.RemoveAllAtFirst | src/en/zoro/src/eu/kanade/tachiyomi/animeextension/en/zoro/HiAnime.kt:190 | Removal goes left to right: when the first occurrence starts right after `a`, the result is `a` followed by the removal applied to what follows the occurrence. |
| Text.BeforeFirst | src/en/zoro/src/eu/kanade/tachiyomi/animeextension/en/zoro/HiAnime.kt:190 | `split(c).first()` is the longest `c`-free prefix. |
| Text.AfterLast | src/en/zoro/src/eu/kanade/tachiyomi/animeextension/en/zoro/HiAnime.kt:191 | `split(c).last()` and `substringAfterLast(c)` give the longest `c`-free suffix, and the whole text when `c` is absent. |
| Text.BeforeLast | src/en/zoro/src/eu/kanade/tachiyomi/animeextension/en/zoro/HiAnime.kt:207 | `substringBeforeLast(c)` followed by `c` and the text after the last `c` rebuilds the text. It is the whole text when `c` is absent. |
| Text.Upper | src/en/zoro/src/eu/kanade/tachiyomi/animeextension/en/zoro/HiAnime.kt:217 | `uppercase()` keeps the length and maps each ASCII lower-case letter to upper case. |

## Left out

- HTTP requests, JSON decoding and Jsoup selection. These are `app.get`,
  `parsed`, `parsedSafe`, `getDocument` and `select`. Their results are
  inputs: parsed records, or the `Site` functions.
- Transport failures. The functions of `Site` are total, so a failing
  `parsed<Response>()` on the server list or a failing
  `parsed<RapidCloudResponse>()` on the intermediary link is not modelled. Such a failure aborts the work of that mirror or of the call.
- `newEpisode` and the URL fixing it may apply to an episode's data. They
  belong to the app library and are not part of this model. The parsing
  lemmas cover the data string both as built and with the site prefix in
  front.
- The concurrency of `apmap`. Mirrors are handled one after another in page
  order, so the model fixes one order of delivery among the possible ones.
- `M3u8Helper.generateM3u8`. The model emits the manifest descriptor
  (label, first URL, empty referer) that the helper is called with. It does
  not model the per-quality links the helper fetches and produces.
- Internals of `loadExtractor` and `extractRabbitStream`. They are oracles.
  The model keeps only the order within each callback, not how an
  extractor's stream and subtitle calls interleave.
- `getKey`, the decryption key fetch. It is a network fetch only.
- The fire-and-forget `OPTIONS` probe sent by `ioSafe` in the interceptor.
  It is asynchronous and its result is discarded.
- `ActorRole.valueOf` throwing on unknown cast text. The role is the raw
  cast string.
- `toIntOrNull` on the sub/dub counts and episode numbers, and
  `URI(url).path`. These arrive already parsed.
- `getDurationFromString`, `toRatingInt`, `tryParseJson`, `addMalId` and
  `addAniListId`. These are foreign helpers of the metadata part of `load`.
- Metadata fields of `load` (title, poster, plot, year, tags, rating,
  recommendations), and `toSearchResult`, `search` and `getMainPage`. They
  map fields from the page with no decision logic.
- The `mainPage` URL table, the API base URL from the build configuration
  and `Log.d`. These are configuration and logging.
- Text.Upper: covers ASCII letters only, because the locale-independent
  Unicode case mapping of Kotlin's `uppercase()` (such as "ß" to "SS") is not
  modelled.
- Interceptor.HashCode: hashes a `char` as its code point. Java hashes UTF-16
  code units, so the two differ for characters outside the Basic
  Multilingual Plane.
- Links.SelectServers: compares the `data-type` attribute with the track
  literally. Jsoup's attribute-value match ignores case and trims
  surrounding whitespace, so it would also select an item whose
  `data-type` is `"SUB"` or `" sub "`; this is not modelled, since the
  tracks the episode list produces are always the lower-case `sub` and
  `dub`. Jsoup's rejection of a track that is not a valid CSS identifier,
  when it is put into the selector, is not modelled either.
