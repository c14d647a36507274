# Insta-Downloader: a Dafny model of the resolve and download path

Insta-Downloader is a small web application. It takes an Instagram post,
reel, IGTV or story link, asks a third-party provider for the media behind
it, and streams the chosen file back to the browser as an attachment. This
project models the server-side core of that path, plus the client's
recent-downloads list. Every piece is written as pure functions over
immutable datatypes, and the model proves what the code promises.

| module | file | models |
|---|---|---|
| `Common` | common.dfy | `Option`/`Result`, JavaScript truthiness of optional strings (`""` is falsy), `a \|\| b`, `includes`, the prefix test the pattern matcher is built from, decimal rendering of a status |
| `Seqs` | seqs.dfy | `Array.prototype.filter` and `slice(0, n)` over sequences, with the subsequence facts about them |
| `InstagramValidator` | validator.dfy | the link pattern as a deterministic matcher, `isValidInstagramUrl`, `getInstagramVideoId` |
| `MediaNormalizer` | normalizer.dfy | the body of one attempt after the JSON parse: unwrapping, media mapping, the primary-URL ladder and the field fallbacks |
| `InstagramService` | service.dfy | `getInstagramVideo`: the key check, one attempt (status check, parse, normalise) and the three-attempt retry loop |
| `ProxyRoute` | proxy.dfy | `GET /api/proxy`: parameter defaults, filename sanitising, header construction, error-to-status mapping |
| `DownloadRoute` | download.dfy | `POST /api/download`: the validation gate and the mapping of the result or thrown error to a reply |
| `RecentDownloads` | recent.dfy | `addRecentDownload`, `removeRecentDownload`, `clearRecentDownloads`, `MAX_RECENT_ITEMS` |

Modelling decisions:

- **Link pattern.** The regular expression on line 1 of the validator is
  deterministic:
  - each optional group is taken exactly when its text is there;
  - the four content segments begin with different letters;
  - the identifier class is matched greedily.

  `MatchLink` strips the parts off one by one. `Compose` is an independent
  reference: it builds the link that a decomposition (`LinkMatch`) describes.
  The two are proved inverse on well-formed decompositions.
- **Host name.** The WHATWG `new URL(url).hostname` is a parameter
  `hostOf: string -> Option<string>`. `None` stands for the constructor
  throwing.
- **Provider body.** The body is a `Payload` whose fields are all
  `Option<string>`, with an optional nested `data` payload. A present but
  empty string is falsy, exactly as `||` treats it. A `medias` field that is
  not an array is `None`.
- **Network.** Each provider `fetch` is replaced by a `FetchOutcome`:
  - a rejected promise, with its message (this covers network errors and the
    15-second abort);
  - or a response, with its status and either a parsed payload or a parse
    error.

  `GetInstagramVideo` takes one outcome per attempt and requires at least
  three, so that the environment answers every fetch the loop can make.
  Outcomes past the last attempt are never looked at.
- **Retry loop.** `RetryLoop` is a fold over the per-attempt results. It
  counts the attempts made and the one-second pauses taken.
- **Proxy upstream.** The proxy's upstream fetch is an `Upstream` value.
  `fetched` in the result records which URL was requested, if any.
- **Recent-downloads time stamp.** `Date.now()` in the recent-downloads list
  is a parameter.

Failure handling in `getInstagramVideo`:

- The only terminal condition is an error message that contains
  `Authentication error`, which the code raises for HTTP 401 and 403.
- Every other failure is retried, up to three attempts in all. This covers:
  - 404, 429 and every other non-ok status;
  - network failures and timeouts, and 2xx bodies that are not JSON. These
    fail with the fetch's or the parser's own message, so they are retried
    unless that message itself contains `Authentication error`;
  - the normaliser's "Could not find download URL" error.
- There is no private-account or logic-error detection. A 2xx body that
  reports a failure of its own gets no special handling: it fails only if it
  yields no download URL, and that failure is retried like any other.

`InstagramService.Attempt` and `RetryLoop` state exactly this.

The service throws plain errors without a `status`, so the resolve endpoint
turns every service failure into a 500 (`DownloadRoute.ValidLinkOutcome`).

## Model

| member | source | states |
|---|---|---|
| InstagramValidator.MatchLink | src/lib/instagram-validator.ts:1 | a match is a well-formed decomposition (non-empty maximal identifier run) that composes back to exactly the input link |
| InstagramValidator.MatchLinkComplete | src/lib/instagram-validator.ts:1 | every well-formed decomposition is found again from the link it composes, so matcher and `Compose` are inverse |
| InstagramValidator.MatchLinkExact | src/lib/instagram-validator.ts:1 | the pattern matches a link if and only if the link decomposes as optional `http(s)://`, optional `www.`, `instagram.com/`, one of `p`, `reel`, `tv`, `stories`, `/`, an identifier run, and any remainder |
| InstagramValidator.TakeIdRun | src/lib/instagram-validator.ts:1 | the greedy `[a-zA-Z0-9_-]+` run is a prefix made only of identifier characters and stops at the first other character |
| InstagramValidator.MatchSegment | src/lib/instagram-validator.ts:1 | a matched content segment is one of the four names followed by `/`, and the rest of the text is returned unchanged |
| InstagramValidator.IsValidInstagramUrl | src/lib/instagram-validator.ts:3-16 | a valid link is non-empty, its parsed host is `instagram.com` or `www.instagram.com`, and it decomposes along the pattern |
| InstagramValidator.ValidExact | src/lib/instagram-validator.ts:3-16 | validity holds if and only if all three conditions hold; a parse failure gives `false`, never an error |
| InstagramValidator.RejectedHosts | src/lib/instagram-validator.ts:4-10 | the empty link and every link whose host is another name (or does not parse) are invalid, even when the pattern matches |
| InstagramValidator.GetInstagramVideoId | src/lib/instagram-validator.ts:18-24 | a returned identifier is non-empty and made only of `[A-Za-z0-9_-]` |
| InstagramValidator.VideoIdExact | src/lib/instagram-validator.ts:18-24 | an identifier is returned exactly when the pattern matches, and it is the maximal run after the content segment |
| InstagramValidator.TrailingTextKeepsId | src/lib/instagram-validator.ts:1 | the pattern is not end-anchored: text appended after the identifier run, such as `/?igsh=…`, leaves the identifier unchanged |
| InstagramValidator.ValidHasId | src/lib/instagram-validator.ts:11-19 | every valid link has an identifier, because both functions use the same pattern |
| InstagramValidator.SchemelessLinkId | src/lib/instagram-validator.ts:18-20 | the extractor does no host or parse check: `instagram.com/reel/abc` yields `abc` |
| MediaNormalizer.MapMedias | src/lib/instagram-service.ts:79-88 | one item per provider entry, in order; an item's type is its own tag if truthy, else `video` exactly for extension `mp4` and `image` otherwise; its thumbnail falls back to the payload's and then to `""`; its quality is the entry's quality if truthy, else its resolution |
| MediaNormalizer.FindType | src/lib/instagram-service.ts:95 | `find` returns the first position holding the type, or nothing when no item has it |
| MediaNormalizer.FirstFound | src/lib/instagram-service.ts:95 | a position holding the type with no earlier one is the position `find` returns |
| MediaNormalizer.Normalize | src/lib/instagram-service.ts:75-123 | an attempt's body either fails with the missing-URL message or yields a record with non-empty url, id and title whose media list is the mapped list of the unwrapped payload |
| MediaNormalizer.UnwrapOneLevel | src/lib/instagram-service.ts:76 | a truthy `data` replaces the outer payload entirely, and only one level is unwrapped |
| MediaNormalizer.PrimaryUrlPrecedence | src/lib/instagram-service.ts:91-102 | the primary URL is `download_url`, else `video_url`, else `media`, else the first video's URL, else the first image's, else the first item's, else `data.url` when it does not mention `instagram.com` |
| MediaNormalizer.NormalizeFailsExactly | src/lib/instagram-service.ts:91-106 | the attempt fails exactly when no direct field is set, the chosen item has no URL (or there is none), and `data.url` is missing or mentions `instagram.com` |
| MediaNormalizer.KindRule | src/lib/instagram-service.ts:112 | `multiple` exactly when tagged `multiple` with two non-audio items; otherwise `video` exactly when some item is a video |
| MediaNormalizer.Fallbacks | src/lib/instagram-service.ts:108-110 | title defaults to `Instagram Content`; author is `author`, else `username`, else `owner.username`, and `Instagram User` only when there is no owner (or one of those fields literally holds it); thumbnail is `thumbnail`, else `thumbnail_url`, else the first item's thumbnail, else `""` without media |
| MediaNormalizer.IdFallback | src/lib/instagram-service.ts:111 | the id is `data.id`, else the link's own identifier (always present for a valid link), else `unknown-id` |
| MediaNormalizer.VideoPreferredOverImage | src/lib/instagram-service.ts:94-97 | with no direct URL, a video later in the list is preferred over an earlier image |
| MediaNormalizer.CollectionOfTwoImages | src/lib/instagram-service.ts:76-112 | a nested body tagged `multiple` with two images gives a two-item collection whose URL is the first image |
| InstagramService.AuthErrorDetected | src/lib/instagram-service.ts:69-71 | the 401/403 message contains `Authentication error` |
| InstagramService.ApiErrorNotAuthentication | src/lib/instagram-service.ts:72 | no other status's message contains `Authentication error` |
| InstagramService.NoDownloadUrlNotAuthentication | src/lib/instagram-service.ts:104-106 | the missing-URL error is not an authentication error, so it is retried |
| InstagramService.ApiErrorMessage | src/lib/instagram-service.ts:72 | the message is `External API error: ` followed by digits only, and those digits read back as the status |
| Common.DecimalString | src/lib/instagram-service.ts:72 | the status in the error message is written in decimal, with no leading zero, and reading the digits back gives the status |
| InstagramService.Attempt | src/lib/instagram-service.ts:53-123 | a rejected fetch fails with its own message, and an unparseable 2xx body with the parser's message (each retried unless that message contains the marker); 401/403 fail terminally; any other non-ok status fails retryably; a non-ok status fails with exactly `Authentication error: <status> - Check API Key` for 401/403 and `External API error: <status>` otherwise; a normalisation failure fails retryably; an ok JSON body yields the normalised record |
| InstagramService.RetryLoop | src/lib/instagram-service.ts:52-131 | the loop stops at the first success or authentication error, or after the last attempt; its answer is that attempt's; every earlier attempt was retryable; one pause after each attempt but the last |
| InstagramService.GetInstagramVideo | src/lib/instagram-service.ts:37-134 | a missing key fails with the misconfiguration message and no attempt; otherwise 1 to 3 attempts, pauses equal attempts minus one, and the answer is the last attempt's |
| InstagramService.FirstDecisiveAttempt | src/lib/instagram-service.ts:52-131 | the first non-retryable attempt among the three decides the answer, with that many attempts and one fewer pauses |
| InstagramService.LoopExhausts | src/lib/instagram-service.ts:125-133 | three retryable failures give three attempts, two pauses and the third error, so the fallback message is never reached |
| InstagramService.AllAttemptsRetryable | src/lib/instagram-service.ts:125-133 | the same, stated over the provider's outcomes |
| InstagramService.ThreeNetworkFailures | src/lib/instagram-service.ts:52-133 | three network failures or timeouts are retried and the third message is thrown |
| InstagramService.AuthenticationStopsAtOnce | src/lib/instagram-service.ts:67-127 | a 401 or 403 on the first attempt ends the loop after one attempt with no pause |
| ProxyRoute.SanitizeFilename | src/app/api/proxy/route.ts:29 | every character left is printable ASCII (so neither CR nor LF), and the name never grows |
| ProxyRoute.SanitizeKeepsPrintable | src/app/api/proxy/route.ts:29 | the two replacements together keep exactly the printable-ASCII characters, in order |
| ProxyRoute.SanitizeSubsequence | src/app/api/proxy/route.ts:29 | the sanitised name is obtained from the name by deleting characters |
| ProxyRoute.SanitizeMembership | src/app/api/proxy/route.ts:29 | a character survives exactly when it is printable ASCII, so `"` and `\` survive |
| ProxyRoute.SanitizeIdempotent | src/app/api/proxy/route.ts:29 | sanitising twice is sanitising once |
| ProxyRoute.SanitizeIdentity | src/app/api/proxy/route.ts:29 | the name is unchanged exactly when it is all printable ASCII |
| ProxyRoute.SanitizeExample | src/app/api/proxy/route.ts:29 | line breaks go, while characters a file system might refuse stay |
| ProxyRoute.DispositionPrintable | src/app/api/proxy/route.ts:33 | the `Content-Disposition` value built from a sanitised name is all printable ASCII |
| ProxyRoute.Get | src/app/api/proxy/route.ts:3-47 | no or empty `url` gives 400 and no fetch; a failed fetch or non-ok status gives 500; otherwise 200 with the upstream content type or `video/mp4`, a length only when upstream gives a non-empty one, and an attachment disposition naming the sanitised filename (or `instagram-video.mp4`), all printable |
| ProxyRoute.DefaultFilenameUsed | src/app/api/proxy/route.ts:6 | without a filename, or with an empty one, the attachment is `instagram-video.mp4` |
| DownloadRoute.ErrorReply | src/app/api/download/route.ts:27-37 | the status is the error's (500 when absent or 0), the message is the error's, or exactly `An unexpected error occurred` when it is empty, and `code` passes through |
| DownloadRoute.Post | src/app/api/download/route.ts:5-38 | a missing, empty or invalid link gives 400 `Invalid Instagram URL` with no service call; a call happens only for a valid link, with that link; a success reply is 200 carrying the service's record |
| DownloadRoute.ValidLinkOutcome | src/app/api/download/route.ts:19-37 | a valid link calls the service once; its success is a 200 reply, and every failure of it a 500 with no code carrying its message, or `An unexpected error occurred` when that is empty |
| DownloadRoute.MissingKeyReply | src/app/api/download/route.ts:19-37 | a missing provider key shows as a 500 with the misconfiguration message after no provider attempt |
| RecentDownloads.Add | src/hooks/use-recent-downloads.ts:32-40 | at most six entries; the head is the new item with the given stamp; no other entry has its id; the tail is the old list without that id, in order, cut to five |
| RecentDownloads.AddKeepsIdsUnique | src/hooks/use-recent-downloads.ts:33-36 | adding to a list with unique ids keeps ids unique |
| RecentDownloads.AddTwiceSameIds | src/hooks/use-recent-downloads.ts:33-36 | adding the same id again gives the same id sequence; only the head entry is replaced |
| RecentDownloads.Remove | src/hooks/use-recent-downloads.ts:47-51 | no entry with the removed id remains |
| RecentDownloads.RemoveExact | src/hooks/use-recent-downloads.ts:47-48 | removal deletes exactly the entries with the id and keeps every copy of every other entry, in order; a list without the id is left unchanged |
| RecentDownloads.Clear | src/hooks/use-recent-downloads.ts:42-45 | the cleared list is empty |
| RecentDownloads.AddAfterClear | src/hooks/use-recent-downloads.ts:32-45 | adding after a clear leaves just the stamped item |

## Left out

- Network I/O and timing: `fetch`, the 15- and 20-second aborts, and the one-second pause. A fetch becomes an outcome value, and the pause is a counter.
- The provider request itself: the API host setting, `encodeURIComponent` of the link, the request URL and the request headers. Apart from the case in the next line, none of them affects the decisions modelled.
- Strings are sequences of Unicode scalar values, so a link holding a lone UTF-16 surrogate is outside the model. Such a link can pass validation, since the URL parser replaces the surrogate and the pattern still matches. `encodeURIComponent` then throws (src/lib/instagram-service.ts:45) before any provider attempt, and the endpoint replies 500.
- Reading the error body with `response.text()` (src/lib/instagram-service.ts:68). Its value is discarded, and its own possible rejection is not modelled.
- JSON parsing, and JSON values that are not strings where the code expects a string. A number or object in a payload field, or a truthy non-string `url` posted to the endpoint, is outside the model. So is a `null` posted body, whose destructuring throws; it can be written as `Unparseable` with the thrown message. Likewise a 2xx provider body that is JSON `null` (reading `responseData.data`, src/lib/instagram-service.ts:76) and a `null` entry in `medias` (reading `m.url`, line 82) throw a `TypeError` inside the `try` block. Neither can be expressed as a `Payload`, so both are outside the normaliser; such a response can be written as `NotJson` with the thrown message, which the loop then retries like any other non-authentication failure.
- Parsing the proxy's query string with `new URL(request.url)`. The parameters arrive already parsed.
- The streamed body of the proxy's reply, and the upstream `statusText` the proxy puts in an error message that it then discards.
- The constant `platform: 'instagram'` field of the record. The `success` flag of the endpoint's JSON body is represented by the reply-body constructor.
- DownloadRoute.ErrorReply: accepts any status the thrown error carries. `NextResponse.json` (src/app/api/download/route.ts:32-35) throws for a status outside 200-599 or for a status that may not have a body (such as 204); that exception escapes the `catch` block and the framework answers with its own 500. No error thrown in this code carries a `status`, so the case is not reached.
- DownloadRoute.PlainError: every error thrown by the service, and the rejection of the request's JSON parse, is treated as a plain `Error` without `status` or `code`. Errors raised by `fetch` itself (a network error, or the abort's error) may carry properties of their own, and those are not modelled.
- InstagramService.GetInstagramVideo: requires at least three fetch outcomes. The environment must answer every fetch the loop could make; this restricts the model of the environment, not the link or the key.
- The concrete sample link of verify-api.js:6 is not stated separately. `TrailingTextKeepsId` covers every link of its shape, a match followed by `/?igsh=…`.
- Loading and saving the recent-downloads list in `localStorage`, `Date.now()` (the stamp is a parameter), and the React state and hook mechanics.
- The user interface (src/app/page.tsx, src/components, src/app/layout.tsx), the client wrappers src/hooks/use-downloader.ts and src/lib/api-client.ts, static configuration (manifest, sitemap, next.config.ts) and the maintenance scripts.
