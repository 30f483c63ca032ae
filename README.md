# Video API request layer and media proxy, modelled in Dafny

The repository serves a JSON API over several video-platform scraping
libraries (index.js) and a second listener that forwards media and
caption requests to their origin (proxy.mjs). This project models the
request-routing and response-shaping layer of both files, and proves its
properties.

The model covers:

- **URLParser**: the path segments, the api flag, the type and resource
  segments, and the query map.
- **handleRequest**: the seven-way switch, and how it turns missing
  types, unknown types and exceptions into 400, 404 and 500 envelopes.
- **The handlers**: videos, search, trending, channel, comments, captions
  and playlist, each with its checks and the reshaping of its result.
- **The DASH manifest**: the rewriting `handleVideoReq` applies to it.
- **The index.js request listener** of `createServer`: the status, headers and body it
  would send. The repository never calls `createServer`.
- **The proxy.mjs listener**: how it routes by prefix, checks the `url`
  parameter, builds the upstream request and writes the reply.

The external libraries are abstract: `ytdl`, `ytsr`, the trending,
channel and comment scrapers, `yt-xml2vtt`, `ytpl` and the DASH generator.
`Services.Services` holds one function from each library call, with its
arguments, to a returned value or an exception. It also holds the HTTPS
fetch and the two `validateID` predicates. JavaScript values are the
datatype `Js.Value`, and an exception is `Js.Attempt.Thrown`.

Step-by-step code is written as methods and proved equal to specification
functions:

- the `forEach` loops of `handleTrendingReq` and `getCaptions`;
- the reassignments of `dash` and the `delete`s in `handleVideoReq`;
- the `delete`s in the playlist `parser`;
- the `res.statusCode`/`setHeader`/`end` sequences of both listeners.

Other code is written as functions. Properties are stated on the
functions and proved as lemmas.

Behaviour of the code that is easy to misread:

- A repeated query key keeps its **last** value in index.js, because
  `Object.fromEntries` stores entries in order. `URLSearchParams.get`, used
  by the proxy for `url`, returns the **first**.
- index.js labels a string payload `application/json` and any other payload
  `text/plain`. The proxy's API branch does the reverse.
- The proxy makes exactly one upstream request. It follows no redirects and
  copies none of the upstream headers: the reply gets the upstream status and
  `access-control-allow-origin: *`, and only the body is piped through.
- The proxy sends `/api…` paths to `handleRequest` by raw prefix, so
  `/apix/videos/x` is dispatched. The listener of `createServer` in index.js
  would answer that path with 404, but `createServer` is never called nor
  exported (index.js:256-257), so proxy.mjs's listener is the one that serves.
- The proxy removes the first `?url=` wherever it stands. A `?url=` that is
  not at the start reaches that cut only when some other `&`-separated `url`
  pair is non-empty. For `/proxy?a=1?url=https://x` the only pair is `a` =
  `1?url=https://x`, so the listener answers 400 "Required parameter
  missing.". For `/proxy?a&url=y&z?url=x` the computed target is
  `?a&url=y&zx`. That string starts with `?`, so the program hands
  `https.request` something it cannot parse as a URL and throws there: no
  upstream request is made and no reply is written. The async listener's
  rejection has no handler, which recent Node versions treat as fatal (see
  the `Proxy.Listener` line under "Left out").
- The 400 for an invalid video id names the id (`<id> is not a valid
  YouTube video ID.`). A missing id gives `No video id provided.`.

## Model

| member | source | states |
|---|---|---|
| `Text.Split` | index.js:110 | every part is free of the separator and there is at least one part |
| `Text.JoinSplit` | index.js:110 | joining the parts of a split with the separator restores the text |
| `Text.SplitJoin` | index.js:110 | splitting a join of separator-free parts gives back the parts |
| `Text.IndexOf` | proxy.mjs:29 | the result is -1 or a position where the pattern occurs, and no earlier position (up to the end of the text) holds it |
| `Text.ReplaceFirst` | proxy.mjs:29 | a text without the pattern is unchanged; otherwise the first occurrence, and only it, is replaced |
| `Text.StripLeading` | proxy.mjs:29 | replacing a leading pattern with the empty string leaves exactly the rest of the text |
| `Route.Segments` | index.js:110 | the segments after the leading one contain no slash |
| `Route.SegmentsRebuildPath` | index.js:110 | a path starting with `/` is `/` followed by its segments joined with `/` |
| `Route.FromEntries` | index.js:116 | the query map has a key exactly when some parameter has that name |
| `Route.FromEntriesLastWins` | index.js:116 | for a repeated name, the value of its last occurrence is kept |
| `Route.FirstValue` | proxy.mjs:23 | `URLSearchParams.get`: none exactly when no parameter has the name, else the value of its first occurrence |
| `Route.ParseRoute` | index.js:109-119 | api flag iff segment 0 is `api`; type is segment 1 and resource segment 2, absent past the end and slash-free; queries is the `fromEntries` map of the pairs; href kept |
| `Route.ApiPathParts` | index.js:110-115 | `/api/<type>/<resource>` parses to exactly that type and resource |
| `Route.ApiPathType` | index.js:110-115 | `/api/<type>` parses to that type and no resource |
| `Route.QueryValueIsLast` | index.js:116 | a parameter with no later namesake reaches the route's queries with its own value |
| `Route.ApiRequestIffApiPath` | index.js:110-113 | a request is an API request iff its path is `/api` or lies under `/api/` |
| `Route.TrailingSlashHasEmptyType` | index.js:110-114 | the path `/api/` is an API request whose type is the empty string |
| `Envelopes.AsOk` | index.js:251 | a provider result becomes a 200 envelope with that data; an exception passes through |
| `Manifest.RewriteWithoutScheme` | index.js:132 | `RewriteHttps` leaves text containing no `https://` in any case unchanged |
| `Manifest.RewriteAtScheme` | index.js:132 | in `RewriteHttps`, the first match, in any letter case, becomes proxy prefix plus lower-case `https://`, and the rewriting resumes after it |
| `Manifest.RewriteProxiesEveryUrl` | index.js:130-132 | text made of scheme-free pieces around `https://` gets the proxy prefix before every occurrence, in one pass |
| `Manifest.CutAtPeriodEnd` | index.js:133 | the result is a prefix with no `</Period>`, and is shorter than the text exactly when a `</Period>` follows it |
| `Manifest.EscapeAmp` | index.js:137 | every `&` in the result opens an `&amp;` reference |
| `Manifest.UnescapeEscapeAmp` | index.js:137 | decoding `&amp;` after escaping gives back the caption URL |
| `Manifest.CaptionSet` | index.js:137 | the set opens with `lang` set to the language code, holds the `BaseURL` of the captions resource plus the `&`-escaped track URL, and closes the AdaptationSet; the `Representation` markup sits right after the language attribute, and the length is exactly that of the pieces |
| `Manifest.TrackSet` | index.js:137 | fails exactly when the track is null/undefined or its `baseUrl` is not a string; otherwise the track's `CaptionSet` with the language code as text |
| `Manifest.TrackSets` | index.js:136-138 | one AdaptationSet result per track, in track order |
| `Manifest.ConcatAllThrownIff` | index.js:136-138 | the concatenation fails exactly when one of its pieces fails |
| `Manifest.ConcatAllAppend` | index.js:136-138 | the concatenation of two runs of pieces is the first run's text followed by the second's |
| `Manifest.CaptionSetsThrownIff` | index.js:136-138 | the caption text fails exactly when some track cannot be written |
| `Manifest.CaptionSetsAppend` | index.js:136-138 | caption text of two runs of tracks is the first run's text followed by the second's |
| `Manifest.CaptionSetsStep` | index.js:136-138 | one more track appends its AdaptationSet to the text so far |
| `Manifest.GetCaptions` | index.js:134-140 | the `forEach` accumulation equals the caption sets of the tracks in order |
| `Manifest.CaptionTracks` | index.js:141 | reading `captions.playerCaptionsTracklistRenderer.captionTracks` throws exactly when the captions or the renderer is null/undefined; otherwise the value is `captions.playerCaptionsTracklistRenderer.captionTracks` |
| `Manifest.CaptionsText` | index.js:141 | empty for falsy captions; throws iff they are truthy and the renderer is nullish, the tracks are not an array, or some track fails; otherwise the caption sets of the tracks |
| `Manifest.Manifest` | index.js:130-142 | the proxied manifest, cut before its first `</Period>`, then the caption sets verbatim (not proxied), then `</Period></MPD>` |
| `Trending.IdsOf` | index.js:172-173 | the `ids` array holds each kept video's id, in order |
| `Trending.FirstsCoverIds` | index.js:171-176 | the ids kept so far are exactly the ids seen so far |
| `Trending.FirstsAreSubsequence` | index.js:171-176 | the kept videos sit at strictly increasing input positions, each the first occurrence of its id |
| `Trending.FirstsDistinct` | index.js:171-176 | no two kept videos share an id |
| `Trending.EveryIdKept` | index.js:171-176 | every id of the input is carried by some kept video |
| `Trending.FirstOccurrences` | index.js:169-176 | the kept videos have distinct ids, and their ids are exactly the input's ids |
| `Trending.DedupOutcome` | index.js:171-176 | throws iff some video is null/undefined; otherwise the first occurrences |
| `Trending.DedupByVideoId` | index.js:169-176 | the loop throws on a null/undefined video, else yields the first occurrences in input order |
| `Handlers.JsObject.Delete` | index.js:127-129 | `delete` removes exactly that property and keeps the others |
| `Handlers.SentInfo` | index.js:127-129 | the info sent keeps every own property except `player_response`, `response` and `formats`, and adds `dash` |
| `Handlers.GeneratedDash` | index.js:125 | throws iff the info or its `videoDetails` is nullish or the generator throws or yields a non-string; otherwise the generator's text |
| `Handlers.PlayerCaptions` | index.js:126 | throws iff the info or its `player_response` is nullish; otherwise the value is `info.player_response.captions` |
| `Handlers.VideoFromInfo` | index.js:124-146 | returns iff the generator, the captions read and the caption tracks succeed; then a 200 `{videoId, info}` whose info is stripped of the three keys and whose `dash` is `Manifest` of the generated text and the caption sets |
| `Handlers.VideoOutcome` | index.js:121-154 | 400 "No video id provided." for a missing/empty id; 400 `<id> is not a valid YouTube video ID.` for an invalid one; otherwise `getInfo`'s exception or `VideoFromInfo` of its info |
| `Handlers.CaptionsOf` | index.js:141 | the step-by-step caption text equals `CaptionsText` |
| `Handlers.StripInfo` | index.js:127-129 | the three in-place deletes leave the own properties minus the stripped keys |
| `Handlers.HandleVideoReq` | index.js:121-154 | the step-by-step handler equals `VideoOutcome` |
| `Handlers.HandleSearchReq` | index.js:156-164 | 400 "Empty search query." iff both `q` and `next` are falsy; a token is parsed and answered from `continueReq`; otherwise `ytsr(q, {pages: 1})` as a 200 |
| `Handlers.NextOverridesQuery` | index.js:163 | with a continuation token present, the query makes no difference |
| `Handlers.TrendingCall` | index.js:75-80 | `page` is "default" only when absent, `geo` is passed on, creators on the rise are not parsed |
| `Handlers.TrendingOutcome` | index.js:166-178 | returns iff the scrape returns an array without null/undefined videos; then a 200 whose `trending` list is the first occurrences |
| `Handlers.HandleTrendingReq` | index.js:166-178 | the step-by-step handler equals `TrendingOutcome` |
| `Handlers.ChannelCall` | index.js:182-202 | videos, playlists and community each take their own continuation call with `next` when it is present and their own fresh call with the config otherwise; any other type fetches the channel info |
| `Handlers.HandleChannelReq` | index.js:180-204 | 400 "No channel id provided." iff the channel id is missing or empty; otherwise `ChannelCall`'s result as a 200 |
| `Handlers.CommentsCall` | index.js:207-213 | the id and token are passed unchecked, not sorted by newest, no cookie |
| `Handlers.HandleCommentsReq` | index.js:206-215 | throws iff the library throws; otherwise a 200 carrying the library's result |
| `Handlers.CaptionTarget` | index.js:218 | the href with the first occurrence of the captions prefix cut out; the href itself when the prefix does not occur |
| `Js.Truthy` | index.js:141 | the falsy values are exactly `undefined`, `null`, `false`, `0` and the empty string |
| `Js.Prop` | index.js:125-126 | reading a property throws exactly on `null`/`undefined`; an absent property, or any property of a non-object non-nullish value, reads as `undefined` |
| `Handlers.HandleCaptionsReq` | index.js:217-221 | a failed fetch throws; otherwise the converted track as a 200 |
| `Handlers.CaptionLinkFetchesTrack` | index.js:218 | a caption link written into the manifest, once `&amp;` is decoded, fetches exactly the track's URL |
| `Handlers.PlaylistParts` | index.js:227-236 | throws iff the data is null/undefined; else `{continuation, info, items}` with info the data minus those two keys |
| `Handlers.PlaylistPartsRejoin` | index.js:227-236 | info plus the lifted continuation and items gives back the original fields |
| `Handlers.Parser` | index.js:227-236 | the in-place parser equals `PlaylistParts` |
| `Handlers.PlaylistReply` | index.js:238 | a 200 exactly for library data that is returned and not null/undefined, carrying the parsed parts |
| `Handlers.PlaylistOutcome` | index.js:223-246 | 400 naming the id iff there is no `next` and the id is invalid; a `next` is parsed and answered from `continueReq`; a valid id from `ytpl(id, {pages: 1})`, both through the parser |
| `Handlers.HandlePlaylistReq` | index.js:223-246 | the step-by-step handler equals `PlaylistOutcome` |
| `Requests.HandlerOutcome` | index.js:66-101 | each of the seven types selects its own handler with the route's resource, queries or href; any other type is 404 with undefined data |
| `Requests.Dispatch` | index.js:62-107 | 400 "No type provided." for a missing/empty type; a handler's returned envelope is sent as it is; 404 iff the type is unknown; 500 iff a handler threw, and then the fixed generic body |
| `Requests.TrailingSlashIsBadRequest` | index.js:64 | `/api/` is answered with 400 "No type provided." |
| `Requests.VideoRequestWithoutId` | index.js:67-68 | `/api/videos` is answered with 400 "No video id provided." |
| `Requests.InvalidVideoIdIsNamed` | index.js:149-153 | `/api/videos/<id>` with an id the validator refuses gets a 400 naming that id |
| `Requests.SearchTokenTakesContinuation` | index.js:70-72 | a search with a parsed token is answered with `continueReq`'s result, or 500 when it throws |
| `Requests.InvalidPlaylistIdIsNamed` | index.js:94-96 | a playlist request without token and with an invalid id gets a 400 naming the id |
| `Requests.HandleRequest` | index.js:62-107 | the handler dispatch with the stateful handlers equals `Dispatch` |
| `Http.WithHeader` | index.js:55-57 | setting a header changes that header only |
| `Http.Reply.SetStatus` | index.js:54 | only the status changes |
| `Http.Reply.SetHeader` | index.js:55-57 | only that header changes |
| `Http.Reply.End` | index.js:58 | only the body is set |
| `ApiServer.EnvelopeBody` | index.js:58 | a string is sent as text, anything else as its JSON form |
| `ApiServer.EnvelopeReply` | index.js:54-58 | status of the envelope, content type by string-ness, `max-age=300`, any origin, the body; the other headers already set are kept and no other header is added |
| `ApiServer.SendEnvelope` | index.js:54-58 | the four writes leave `EnvelopeReply` |
| `ApiServer.IndexEnvelope` | index.js:50-52 | 404 "The requested resource could not be found." for a non-API path; an API path gets `Dispatch`'s envelope |
| `ApiServer.ServeIndexRequest` | index.js:48-59 | the reply is the envelope written with the inverted content type labels |
| `Proxy.Upstream.Request` | proxy.mjs:29-43 | the request is recorded after those already made, and its answer is returned |
| `Proxy.BranchOf` | proxy.mjs:10-20 | `/api` prefix first, then `/proxy`, otherwise (including an absent URL) the 404 branch |
| `Proxy.UpstreamTarget` | proxy.mjs:29 | the search string with its first `?url=` cut out wherever it stands; unchanged when `?url=` does not occur |
| `Proxy.UrlParamCutMidQuery` | proxy.mjs:29 | for a `?`-led search with `?url=` after other parameters, the target is the text before it glued to the text after it, and so starts with `?` |
| `Proxy.MidQueryTargetExample` | proxy.mjs:29 | the search `?a&url=y&z?url=x` gives the target `?a&url=y&zx`, which starts with `?` |
| `Proxy.OutboundHeaders` | proxy.mjs:31-34 | all incoming headers unchanged except `host`, which is empty |
| `Proxy.ForwardedRequest` | proxy.mjs:29-35 | the target is `UpstreamTarget` of the search string (the first `?url=` cut out wherever it stands; the search itself when there is none); the headers are the incoming ones with `host` emptied |
| `Proxy.ListenerRequests` | proxy.mjs:20-44 | at most one upstream request, made exactly for a `/proxy` path with a non-empty `url` parameter, to `UpstreamTarget` of the search string with `OutboundHeaders` |
| `Proxy.ListenerReply` | proxy.mjs:9-49 | API: the `Dispatch` envelope written with its status, `text/plain` iff string, `max-age=300`, any origin, and its body; missing url: 400 text; proxied: upstream status, body piped, CORS added; else 404 "Not found." |
| `Proxy.Listener` | proxy.mjs:9-49 | the listener's requests and reply are `ListenerRequests` and `ListenerReply` |
| `Proxy.PrefixDispatchesBeyondApiSegment` | proxy.mjs:10-11 | `/apix/videos/x` is dispatched by the proxy although it is not an API request for index.js |

## Left out

- Network I/O: `httpsGet` and its comma join of chunks, `https.request`, the `pipe` streaming and connection errors. The fetch is a function from URL to text or failure. The upstream is a function from request to status and body bytes.
- Proxy.Listener: does not model `https.request` throwing synchronously on a malformed target; the model always obtains an upstream response.
- Async sequencing, server start-up and event wiring, logging, `devMode`, and the `PORT`/`HOST` reads. `apiBase` is a parameter.
- URL parsing. The WHATWG URL constructor's decoding and normalisation are inputs: the pathname, the raw search string, the decoded query pairs and the href. The raw `req.url` of the proxy is a separate input, not derived from them.
- `JSON.parse` of continuation tokens is a library call. `JSON.stringify` is the `Json` body form; serialising `undefined` to no text is not modelled.
- Numbers are integers only, object key order is not kept, and property reads see only own properties, never prototype members. Object spread of an array or string copies nothing here, though JavaScript copies its indices.
- Http.Reply.SetHeader: header names are kept as given. Node folds them to lower case, but no listener sets one header under two spellings.
- Manifest.TrackSet: `baseUrl.replace` is taken to throw for every non-string; an object with its own `replace` method is not modelled. The same holds for `forEach` on non-arrays in `CaptionsText` and `TrendingOutcome`.
- Manifest.RewriteHttps: only ASCII letters are case-folded, which covers every letter of `https`.
- Manifest.RewriteHttps: the replacement text is inserted literally. `replace` would expand `$&`, `` $` ``, `$'` and `$$` in it, so an `apiBase` holding `$` is not modelled.
- Trending.DedupByVideoId: ids are compared as values. `ids.includes` uses SameValueZero, which compares object and array ids by reference.
- Handlers.CaptionLinkFetchesTrack: assumes the request's href begins with the same `apiBase`, and that URL parsing leaves the track URL unchanged. When `HOST` is an `https://` base, the href is parsed against `http://${host}` (proxy.mjs:11). The prefix is then not found and `CaptionTarget` leaves the `http:` href unchanged, as it states for an absent prefix. The program passes that href to `https.request`, which refuses the `http:` protocol, so `httpsGet` rejects and the request ends in a 500; the model's `httpsGet` is an oracle and does not capture that refusal.
- Redirect following, mentioned only in a comment of proxy.mjs, does not exist in the code and is not modelled.
- The `_200`/`_400`/`_404`/`_500` helpers are the plain constructors `Ok`, `BadRequest`, `NotFound` and `ServerError`. Their behaviour is stated by `Requests.Dispatch` and the handlers' contracts.
