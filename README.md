# Ryne.AI token extractor — verified model of its core

The extractor (`server.js`) drives a headless browser to the Ryne.AI web
application, listens to every outbound request the page makes, keeps the
`Authorization: Bearer …` header and the `Cookie` header of requests whose URL
contains, anywhere, the identity provider's REST API path
(`supabase.co/rest/v1/`) or `ryne.ai`, waits a bounded number of one-second
ticks for a token, writes `token.txt` and `token.json` (and `Cookie.txt` when a
cookie was kept), and serves status, token and cookie over HTTP. A trigger
while an extraction is running is refused with 409. The status and the last
result are always set together; the `Server` class keeps that pairing as an
invariant of every method.

This project models the three pieces of logic inside that plumbing:

- `capture.dfy`, module `Capture`: the request listener. The URL test (a
  substring test on either marker), the case-insensitive `bearer ` prefix
  test, JavaScript header truthiness, and the callback as a `Listener` class
  whose `OnRequest` updates `token` and `cookies`. `Scan` is the fold of the
  callback over a sequence of requests; the lemmas say that the last offering
  request wins, that nothing clears a kept value, that every kept value comes
  from a request, and that token and cookie capture are independent.
- `extractor.dfy`, module `Extractor`: one run of `extractToken` and the HTTP
  handlers, as a `Server` class holding `status`, `lastResult` and the working
  directory's files (a map from name to content). The browser is a `Session`
  value: whether launch throws, the requests and error of the opening
  navigation (sign-in page with credentials, public page without), the
  requests of the auto-login steps (whose error is swallowed), and the
  requests arriving during each wait of the poll loop. `Poll` is the counting
  loop with early exit, proved against `ExitTick` (the first iteration with a
  token kept, or the bound). `Outcome` is the end state as a function of the
  inputs; `Complete`, `Extract` and `Trigger` are proved to reach it.
  `extractToken` is split into `Begin` (status `running`, `lastResult`
  null) and `Complete`, so that a trigger arriving while a run is in flight is
  a reachable state.
- `scenarios.dfy`, module `Scenarios`: concrete runs (nothing observed; a
  bearer token and cookie in the first wait; two bearer requests; a token
  before the loop) and client methods showing the 409 guard, a 404 from
  `/token` after a run that found nothing, and `/token` and `/cookie` serving
  exactly the captured headers after a successful trigger.

The code keeps the LAST qualifying header (each qualifying request assigns
`token` and `cookies` again, server.js:73 and 78); a description of the system
that calls the policy "first match wins" disagrees with it. The model follows
the code: `Capture.LastOfferWins` and `Scenarios.LaterBearerOverwrites`.

The model treats `toLowerCase` on ASCII letters only. For the only use of it,
the `bearer ` prefix test, this is exact: no character outside ASCII
lower-cases to `b`, `e`, `a`, `r` or a space, and the one character whose lower
case is longer (U+0130) yields an `i`, which fails the prefix either way.

## Model

| member | source | states |
|---|---|---|
| Capture.Contains | server.js:70 | the URL test is a substring test: true exactly when the marker occurs at some index of the URL |
| Capture.TokenOfQualifies | server.js:70-73 | a request offers a token exactly when its URL contains one of the two markers and its authorization header, lower-cased, begins with `bearer `; the token is that header verbatim |
| Capture.CookieOfQualifies | server.js:77-78 | a request offers a cookie exactly when its URL contains one of the markers and its cookie header is non-empty; the cookie is that header verbatim |
| Capture.CookieIgnoresAuthorization | server.js:77-78 | cookie capture is the same whatever the authorization header is, or whether there is one |
| Capture.TokenIgnoresCookie | server.js:70-76 | token capture is the same whatever the cookie header is, or whether there is one |
| Capture.NoOfferKeeps | server.js:66-84 | requests that offer nothing leave the kept token (or cookie) unchanged |
| Capture.LastOfferWins | server.js:73 | the kept token (or cookie) is the offer of the last request that made one: later qualifying requests overwrite earlier captures |
| Capture.KeptStaysKept | server.js:66-84 | once a token (or cookie) is kept, later requests never clear it |
| Capture.KeptValueOrigin | server.js:66-84 | a kept value is the initial one with no request offering anything, or the offer of some request after which none offered anything |
| Capture.ScanAppend | server.js:66 | the callback over two request streams in turn is the callback over their concatenation |
| Capture.Listener.constructor | server.js:51-52 | the listener starts with no token and no cookie |
| Capture.Listener.OnRequest | server.js:66-84 | one run of the request callback updates `token` and `cookies` as `Step` says |
| Capture.Listener.Observe | server.js:66 | the page delivering a batch of requests in order leaves the values `Scan` gives |
| Extractor.ExitTick | server.js:119-123 | the poll loop exits at an iteration no later than the bound; before it no token was kept; if it exits early a token is kept |
| Extractor.SlotsAfterIsScan | server.js:119-123 | the listener's values after k waits are the callback over every request of those waits |
| Extractor.FinalIsScanOfSeen | server.js:66-123 | the values when the loop exits are the callback over every request seen before then: opening navigation, auto-login, the waits |
| Extractor.ExtractedIsLastOffer | server.js:66-155 | a successful run's token is, verbatim, the authorization header of the last bearer request seen; its cookie is the last offered cookie, or null if none was offered |
| Extractor.MissingIffNoOffer | server.js:125-131 | past the browser start, a run ends with `no_token_found` exactly when no request seen offered a token |
| Extractor.LoginErrorSwallowed | server.js:91-110 | an error thrown by the auto-login steps does not change the run's outcome |
| Extractor.NoCredentialsNoLogin | server.js:86-115 | without credentials the sign-in page and the auto-login play no part in the run |
| Extractor.Persist | server.js:136-144 | a success writes `token.txt` with the token, `Cookie.txt` only when a cookie was kept (else the old file is left as it was), `token.json` with the metadata, and no other file |
| Extractor.Server.constructor | server.js:25-27 | the server starts `idle` with no last result and the files already on disk |
| Extractor.Server.Begin | server.js:36-38 | an extraction first sets the status to `running` and clears the last result, keeping status and result paired |
| Extractor.Server.Browse | server.js:54-123 | launch, listener, opening navigation, auto-login and poll loop yield the error that ends the run early, or otherwise the listener's values at loop exit |
| Extractor.Server.Poll | server.js:119-123 | the poll loop runs at most `maxWait` waits and leaves at the first check that finds a token kept |
| Extractor.Server.Finish | server.js:125-161 | an error sets status `error` with the message as last result and rethrows; no token sets `notfound` with reason `no_token_found` and writes nothing; a token sets `success`, writes the files and returns the metadata with format `Bearer JWT` |
| Extractor.Server.Complete | server.js:50-162 | the browser part and the ending together reach the state `Outcome` gives |
| Extractor.Server.Extract | server.js:36-163 | a whole extraction ends with status, last result, files and completion as `Outcome` gives |
| Extractor.Server.Trigger | server.js:174-182 | while `running`, a trigger answers 409 and changes nothing; otherwise it runs an extraction and answers 200 with its result, or 500 with the error message |
| Extractor.Server.StatusEndpoint | server.js:170-172 | `/status` answers 200 with the current status and last result, which are always a matching pair: `idle` or `running` with null, `success` with a token, `notfound` with `no_token_found`, `error` with a message |
| Extractor.Server.TokenEndpoint | server.js:190-197 | `/token` answers the token file's text, or 404 `token not found` when the file does not exist |
| Extractor.Server.CookieEndpoint | server.js:199-205 | `/cookie` answers the cookie file's text, or 404 `cookie not found` when the file does not exist |
| Scenarios.UrlExamples | server.js:88-105 | the sign-in and dashboard pages the extractor opens pass the URL test |
| Scenarios.BearerByPrefix | server.js:72 | a header passes the bearer test exactly when it has at least seven characters and those seven lower-case to `bearer `; nothing after them matters |
| Scenarios.BearerExamples | server.js:72 | `Bearer …`, `BEARER …` and `bEaReR …` pass the bearer test |
| Scenarios.NotBearerExamples | server.js:72 | `Bearer`, `Bearerabc` and `Basic abc` fail the bearer test |
| Scenarios.NothingObserved | server.js:119-131 | no credentials, two ticks, no request: the run ends with `no_token_found` |
| Scenarios.FirstWaitDecides | server.js:119-155 | a batch in the first wait that leaves a token kept ends the run after that wait, with what the batch left |
| Scenarios.BearerAndCookieObserved | server.js:66-155 | a matching request with a bearer token and a cookie in the first wait: success, both kept verbatim, format `Bearer JWT` |
| Scenarios.LaterBearerOverwrites | server.js:73 | two bearer requests in order: the second one's header is the token |
| Scenarios.ServedAfterSuccess | server.js:136-205 | after a trigger whose run sees a bearer token and a cookie, `/token` and `/cookie` answer 200 with exactly those headers |
| Scenarios.TriggerDuringRun | server.js:174-182 | a trigger arriving while a run is in flight answers 409; a trigger after that run has ended does not |
| Scenarios.NothingFoundMeansNoTokenFile | server.js:125-197 | in a fresh working directory, a trigger whose run sees no request answers 200 with `no_token_found`, and `/token` then answers 404 `token not found` |
| Scenarios.TokenBeforeWaitingSkipsLoop | server.js:119-120 | a token seen while the sign-in page loads ends the poll loop before its first wait; requests of later ticks play no part |

## Left out

- Browser launch options, page creation, navigation waits (`networkidle2`), selector waits, typing and the Enter key (server.js:40-64, 86-115): foreign browser calls. The model only keeps what they cause: the requests observed, and whether they throw.
- Real time: `sleep`, the settle delays and the ISO timestamp (server.js:17, 89, 103, 106, 122, 143). A tick is one wait of the poll loop; `extracted_at` is a string parameter.
- `JSON.stringify` of the metadata (server.js:144): `token.json` holds the metadata record itself.
- Failures of `fs.writeFileSync` (server.js:136-144): the model's file writes always succeed, so an error can only come from launch or the opening navigation.
- `browser.close` (server.js:127, 150, 158): its errors are swallowed and it changes nothing the model tracks.
- Express routing, CORS, `OPTIONS` preflight and response headers (server.js:19-23, 184-189, 195, 203, 207): responses are a status code and a payload.
- Environment and `.env` loading (server.js:14, 23, 29-34, 57): credentials are an optional pair and `MAX_WAIT_SECONDS` a natural number given to the constructor. A negative or non-numeric `EXTRACTOR_WAIT` makes the loop run zero times in the source, which is `maxWait == 0` here.
- The `headless` option (server.js:36, 55): it only configures the browser.
- Concurrency: the model is sequential. An in-flight run is the state between `Begin` and `Complete`; the interleavings of real concurrent triggers, `RUN_ON_START` (server.js:210-212) and the `fetch` polyfill (server.js:216-218) are not modelled.
- Console logging throughout.
- `toLowerCase` on non-ASCII characters: modelled on ASCII letters only, which is exact for the `bearer ` prefix test (see above).
