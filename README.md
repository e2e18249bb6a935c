# CCPorted client core in Dafny

This project models the core of the CCPorted games site. It has five parts.

- **Server list** (servers.ts). The browser reads the mirror manifest `servers.txt` and the ad-host manifest `ahosts.txt`. A manifest that does not answer "ok" is replaced by the compiled-in fallback lists. Otherwise every non-blank trimmed line becomes a server. Its fields are separated by commas and its priority is its 0-based line index.
- **Client state** (state.ts).
  - The persisted `State` object. Every assignment to it goes through a proxy that saves the serialisable fields to local storage. On creation it overlays the saved record.
  - The session flags.
  - `testServer`: fetch `blocked_res.txt`, check two markers, then run an embed challenge raced against a 3000 ms timer.
  - `findServer`: test every server in priority order and take the first success in the response ledger.
  - `isAHost`.
  - What `initializeTooling` does to `currentServer`, `adBlockEnabled` and `adsEnabled`.
- **Game service worker** (`static/game_worker.js`).
  - Which requests it handles, and its three strategies.
  - A seven-day staleness rule over a URL-to-timestamp dictionary.
  - The `CLEAR_CACHE`, `REVALIDATE_ALL` and `INVALIDATE_URL` messages.
- **Site service worker** (`static/sw.js`).
  - Its allow-list, blacklist and extension rules, and its four strategies.
  - How install extends the allow-list with the first field of every manifest line.
  - The `CLEAR_CACHE` and `FORCE_REFRESH` messages.
- **Helpers** (`decamelize`, `capitalizeWords`, `getTimeBetween`), from `src/lib/helpers.ts`. `ccported/src/lib/helpers.ts` defines `decamelize` (lines 5-8) and `capitalizeWords` (lines 52-56) with the same bodies, so one model covers both. It has no `getTimeBetween`.

Layout, one module per file:

| file | module | contents |
|---|---|---|
| `wrappers.dfy` | `Wrappers` | `Option` |
| `strings.dfy` | `Strings` | JavaScript `split`, `join`, `trim`, `includes`, `startsWith`, `endsWith`, ASCII case mapping, decimal rendering |
| `servers.dfy` | `ServerList` | the manifests and the fallback lists |
| `server_order.dfy` | `ServerOrder` | the stable priority sort used by `findServer` |
| `server_test.dfy` | `ServerTest` | `testServer` and the `findServer` round, as functions of what the probes observe |
| `client_state.dfy` | `ClientState` | the `State` proxy and `SessionState` as classes; `findServer` and `initializeTooling` as methods over them |
| `cache_policy.dfy` | `CachePolicy` | URLs, responses and strategy outcomes shared by both workers; the staleness rule |
| `game_worker.dfy` | `GameWorker` | the game service worker |
| `site_worker.dfy` | `SiteWorker` | the site service worker |
| `helpers.dfy` | `Helpers` | the three string and time helpers |
| `worker_comparison.dfy` | `WorkerComparison` | how the two workers' rules relate |

Decisions that follow the code:

- **Priority.** A server's priority is its 0-based line index among the non-blank lines (servers.ts:82).
- **Malformed lines.** A line with fewer than two fields is kept. Its name is missing (`None`) and its path is `""`.
- **The embed race.** Only the first message from the server's own `https://` origin that arrives before the 3000 ms timer decides it. Messages from other origins are ignored.
- **The `.txt` rule.** The site worker's `.txt` network-first branch tests `request.url`, so `.txt` is matched against the whole URL including the query string. Its cacheability rule tests `url.pathname`. So a `.txt` path is never handled, but a URL like `/logo.png?f=.txt` is served network-first. The same URL without the query is served time-aware cache-first (`SiteWorker.TxtBranchThroughQuery`). Without a query string the branch cannot be reached (`SiteWorker.TxtNeedsQuery`).
- **Install.** The site worker reads `/servers.txt` at install without checking the status, so the lines of an error body are added to the allow-list too.
- **The Bell server.** `amazonaws.com` is on the site worker's blacklist, and the blacklist is checked before the allow-list. So the site worker never caches the fallback list's Bell server, even once install has added its hostname (`WorkerComparison.BellServerNeverCached`).
- **Clearing the game cache.** The game worker's metadata dictionary is stored in the same cache that `CLEAR_CACHE` deletes. So clearing the cache also forgets every timestamp.

## Model

| member | source | states |
|---|---|---|
| `Strings.JoinSplit` | src/lib/types/servers.ts:68 | splitting on a separator and joining again gives back the input |
| `Strings.Trim` | src/lib/types/servers.ts:68 | the result is the slice of the input that follows its leading whitespace; everything before and after that slice is whitespace, and the slice starts and ends with a non-whitespace character, so the result is fixed; input without surrounding whitespace is returned unchanged |
| `Strings.TrimIdempotent` | src/lib/types/servers.ts:77 | trimming twice equals trimming once |
| `ServerList.ManifestLinesSpec` | src/lib/types/servers.ts:68 | the manifest lines are exactly the trimmed non-blank raw lines, in file order, and no non-blank raw line is lost |
| `Strings.KeepNonEmptyAt` | src/lib/types/servers.ts:68 | the filter keeps exactly the non-empty strings, in order: its k-th result is the input at the k-th non-empty position |
| `Strings.NonEmptyPositionsComplete` | src/lib/types/servers.ts:68 | no non-empty string's position is missing from the listed positions |
| `ServerList.FindServersSpec` | src/lib/types/servers.ts:58-87 | a response that is not ok yields the six fallback servers; otherwise one server per manifest line, with priority equal to its index and hostname, name and path taken from the line's trimmed fields |
| `ServerList.ParseServerLineSpec` | src/lib/types/servers.ts:76-84 | the hostname is the first trimmed field; the name is the second field when present; the path is the third field, or `""` when it is missing or empty; the priority is the index |
| `ServerList.ThreeFieldLine` | src/lib/types/servers.ts:76-84 | a comma-free `host,name,path` line parses to those three trimmed fields |
| `ServerList.TrailingCommaEmptyPath` | src/lib/types/servers.ts:81 | a line with a trailing comma gets the empty path |
| `ServerList.BellLineHasEmptyPath` | src/lib/types/servers.ts:71 | the Bell line of the manifest parses to the Bell host with the empty path |
| `ServerList.FindAHostsSpec` | src/lib/types/servers.ts:89-107 | a response that is not ok yields the two fallback ad hosts; otherwise one ad host per manifest line, whose hostname is the line's first comma-separated piece trimmed and whose ad code is the second piece trimmed, or missing when the line has no comma |
| `ServerList.ParseAHostLineSpec` | src/lib/types/servers.ts:100-104 | the hostname is the first trimmed piece; the ad code is the second trimmed piece when there is one; a comma-free line gives its trimmed self with no ad code |
| `ServerList.TwoFieldAHostLine` | src/lib/types/servers.ts:100-104 | a comma-free `host,code` pair parses to those two trimmed fields |
| `ServerList.AHostExtraFieldsIgnored` | src/lib/types/servers.ts:100-104 | pieces after the second do not change the ad host |
| `ServerList.FallbackServersShape` | src/lib/types/servers.ts:24-55 | the fallback list has six servers with pairwise distinct hostnames, and three of them share priority 2 |
| `ServerOrder.InsertSorted` | src/lib/state.ts:101 | inserting into a priority-sorted list keeps it sorted and adds one element |
| `ServerOrder.InsertPermutes` | src/lib/state.ts:101 | insertion adds exactly the new server to the multiset |
| `ServerOrder.InsertStable` | src/lib/state.ts:101 | insertion keeps the relative order of servers with equal priority |
| `ServerOrder.SortSorted` | src/lib/state.ts:101 | the sort's result is ordered by ascending priority and has the input's length |
| `ServerOrder.SortPermutes` | src/lib/state.ts:101 | the sort's result is a permutation of its input |
| `ServerOrder.SortStable` | src/lib/state.ts:101 | the sort is stable: the servers of each priority keep their input order |
| `ServerOrder.SortKeepsSorted` | src/lib/state.ts:101 | an already sorted list is left as it is |
| `ServerOrder.ParsedManifestNeedsNoSort` | src/lib/state.ts:98-101 | a parsed manifest is already in test order |
| `ServerOrder.FallbackTestOrder` | src/lib/state.ts:101 | the fallback list is tested in the order Charlie, Ellay, then the three priority-2 mirrors in list order, then Bell |
| `ServerTest.FirstFromOrigin` | src/lib/state.ts:137-165 | the deciding message comes from the server's origin and arrives before 3000 ms; when there is none, every message from that origin arrives at or after 3000 ms |
| `ServerTest.TestServer` | src/lib/state.ts:118-175 | outside the browser nothing is recorded; otherwise at least one entry is recorded, every entry names the server at level 1, and the test raises exactly when the probe threw |
| `ServerTest.TestSucceedsIff` | src/lib/state.ts:128-156 | a success is recorded iff the response is ok with status 200, both markers are present, and the first message from the server's origin before the timer carries the not-blocked token; only the first entry can be a success |
| `ServerTest.BadStatusRecorded` | src/lib/state.ts:172-173 | a status that is not ok, or not 200, records exactly one failure whose reason names the status |
| `ServerTest.ContentMismatchRecorded` | src/lib/state.ts:169-170 | a 200 body lacking either marker records one failure with a reason starting "Content mismatch: " |
| `ServerTest.TimeoutRecorded` | src/lib/state.ts:160-164 | when no message from the origin arrives before 3000 ms, one timeout failure is recorded |
| `ServerTest.FirstFromOriginIsFirstDeciding` | src/lib/state.ts:139-141 | the deciding message is the head of the subsequence of origin-matching messages that arrive before the timer |
| `ServerTest.ForeignMessagesIgnored` | src/lib/state.ts:141 | two message streams with the same timely messages from the origin give the same test result |
| `ServerTest.FirstMessageDecides` | src/lib/state.ts:149-156 | messages arriving after the deciding one do not change the result |
| `ServerTest.FirstFromOriginPrefix` | src/lib/state.ts:149 | appending messages keeps an already found deciding message |
| `ServerTest.Pick` | src/lib/state.ts:104-105 | the round rejects iff a test raised; otherwise the result is the first successful entry's server, and null iff the ledger holds no success |
| `ServerTest.FirstSuccess` | src/lib/state.ts:105 | the result is present iff the ledger holds a success, and it is the server of a successful entry |
| `ServerTest.RoundLedgerTraced` | src/lib/state.ts:101-103 | every ledger entry comes from testing some server of the test order |
| `ServerTest.RoundLedgerSorted` | src/lib/state.ts:101-105 | for a sorted test order, the ledger's priorities never decrease |
| `ServerTest.FirstSuccessIsBest` | src/lib/state.ts:104-105 | in a priority-ordered ledger the first success has minimal priority among all successes |
| `ServerTest.RoundPicksBest` | src/lib/state.ts:101-105 | the chosen server was tested and recorded a success, and no successful entry has lower priority |
| `ServerTest.SuccessIsFromSucceedingTest` | src/lib/state.ts:101-103 | every successful ledger entry names a server of the test order whose own test recorded a success |
| `ServerTest.FindServerPicksBest` | src/lib/state.ts:97-106 | a server found by `findServer` is in the test order, has a recorded success, and has minimal priority among the successes |
| `ServerTest.FindServerNullIff` | src/lib/state.ts:97-106 | `findServer` yields null iff the manifest fetch settled, no test raised and no success was recorded; it rejects iff the manifest fetch or its `text()` threw, or some test raised |
| `ServerTest.IncorrectResponseRecorded` | src/lib/state.ts:142-154 | a deciding message that is not the not-blocked token records "Incorrect embed challenge response", followed by "Embed window not found" when the iframe has no window |
| `ServerTest.WindowMissingRecorded` | src/lib/state.ts:150-154 | when a deciding message arrives, one entry is recorded with a window and two without, the second being the "Embed window not found" failure |
| `ServerTest.ServerSideFindsNothing` | src/lib/state.ts:119 | outside the browser the round records nothing and `findServer` yields null |
| `ClientState.Defaults` | src/lib/state.ts:57-67 | the initial state: version 1.0.0, the first fallback server, grid view, nothing pinned, no games, zero plays |
| `ClientState.LoadAfterSave` | src/lib/state.ts:38-43 | loading what was saved restores every serialisable field, whatever state it is loaded onto |
| `ClientState.OverlayFieldwise` | src/lib/state.ts:108-116 | loading replaces exactly the fields the saved record carries and keeps the others |
| `ClientState.OverlayIdempotent` | src/lib/state.ts:113 | loading an empty record changes nothing; loading the same record twice equals loading it once |
| `ClientState.ApplyChangesOneField` | src/lib/state.ts:48-53 | an assignment changes only its own field; `servers` and `aHosts` are not persisted |
| `ClientState.ReloadAfterAssign` | src/lib/state.ts:48-53 | after any assignment, a fresh load of the saved record reproduces the assigned state |
| `ClientState.Session.constructor` | src/lib/state.ts:10-23 | flags off and an empty response ledger |
| `ClientState.Session.ClearResponses` | src/lib/state.ts:100 | empties the response ledger |
| `ClientState.Session.TestServer` | src/lib/state.ts:118-175 | appends the entries of `ServerTest.TestServer` to the ledger, or reports that the test raised and leaves the ledger as it was |
| `ClientState.AppState.constructor` | src/lib/state.ts:45-67 | the fresh state is the defaults overlaid with the saved record, except on the server side |
| `ClientState.AppState.LoadState` | src/lib/state.ts:108-116 | the state becomes the old state overlaid with the saved record, except on the server side |
| `ClientState.AppState.Save` | src/lib/state.ts:38-43 | in the browser the storage holds the serialisation of the current state; on the server side it is untouched |
| `ClientState.AppState.Assign` | src/lib/state.ts:48-53 | one assignment through the proxy: exactly that field changes, and the new state is saved |
| `ClientState.RaisedStays` | src/lib/state.ts:101-103 | once a test raises, the rest of the round is skipped |
| `ClientState.FindServer` | src/lib/state.ts:97-106 | when `findServers` rejects, `findServer` rejects with `servers`, the ledger and storage untouched; otherwise it behaves as `FindServerResolved` on the resolved list |
| `ClientState.FindServerResolved` | src/lib/state.ts:98-106 | given the list `findServers` resolved to: `servers` ends up holding it sorted by priority, the ledger is the round's over that order, and the result is that round's `Pick`. The persisted fields, the ad hosts and the session flags are kept, and storage holds the old snapshot |
| `ClientState.Session.TestAll` | src/lib/state.ts:101-103 | the ledger grows by exactly the entries of the round's tests, in order; it reports a raise iff some test raised, and no server after that one is tested |
| `ClientState.AppState.AssignServers` | src/lib/state.ts:99 | `servers` becomes the given list; the persisted fields and the ad hosts are kept, and the state is saved in the browser |
| `ClientState.AppState.AssignCurrentServer` | src/lib/state.ts:75 | only `currentServer` changes among the persisted fields, and the new state is saved in the browser |
| `ClientState.AnyHostnameIs` | src/lib/state.ts:65 | true iff some ad host has that hostname |
| `ClientState.IsAHostIff` | src/lib/state.ts:65 | the page is an ad host iff it runs in a browser on `ccported.github.io` or `ccported.click` |
| `ClientState.InitializeTooling` | src/lib/state.ts:70-79 | the `findServer` step is `FindServer`'s contract; `currentServer` becomes the found server and is kept on null; `adBlockEnabled` is the detector's answer; `adsEnabled` is on iff there is no ad blocker and the page is an ad host; nothing past a rejected `findServer` runs; on the server side no server is found and ads stay off |
| `CachePolicy.Href` | static/sw.js:360-365 | the serialised URL starts with its origin and ends with its query |
| `CachePolicy.GetParam` | static/game_worker.js:154-160 | the value of the first pair with that name, and none iff no pair has it |
| `CachePolicy.FreshIff` | static/game_worker.js:73-91 | a file is fresh iff its timestamp is present, non-zero and at most 604800000 ms old |
| `CachePolicy.StaleStaysStale` | static/sw.js:304-322 | a stale file stays stale as time passes |
| `CachePolicy.StampedFreshFor7Days` | static/game_worker.js:62-91 | stamping a URL makes it fresh for exactly seven days and does not change the staleness of any other URL |
| `CachePolicy.ZeroIsStale` | static/game_worker.js:352-365 | a zeroed timestamp stays stale at every time |
| `GameWorker.IsCacheableRequest` | static/game_worker.js:150-180 | a handled request is a GET whose path does not end in `.txt` |
| `GameWorker.RouteSpec` | static/game_worker.js:308-340 | unhandled iff a cache-busting parameter, a `.txt` path, a non-GET method or a `no-cache` header; game files go time-aware cache-first; other HTML, JSON and JS go network-first; everything else goes time-aware stale-while-revalidate |
| `GameWorker.NeverHandled` | static/game_worker.js:150-180 | `.txt` paths, non-GET methods and requests with a `v` parameter are never handled |
| `GameWorker.FirstCacheValueDecides` | static/game_worker.js:155 | with `cache=true&cache=false` only the first value counts, so the request does not bust the cache |
| `GameWorker.NetworkFirstOutcome` | static/game_worker.js:183-214 | always fetches; stores and stamps iff the response is valid; falls back to the cached copy otherwise, and rethrows only when nothing is cached and the fetch threw |
| `GameWorker.TimeAwareCacheFirstOutcome` | static/game_worker.js:217-259 | fetches iff nothing is cached or the copy is stale; serves the cache when it is fresh or the fetch threw; stores and stamps iff it fetched a valid response |
| `GameWorker.TimeAwareStaleWhileRevalidateOutcome` | static/game_worker.js:262-305 | a cached copy is always served at once; it revalidates iff there is no copy or the copy is stale; with nothing cached it answers with the network or rethrows |
| `GameWorker.StrategiesAreSafe` | static/game_worker.js:183-305 | no strategy serves a cache it does not have or stores an invalid response, and each stamps exactly when it stores |
| `GameWorker.RevalidatedIsStale` | static/game_worker.js:352-365 | after `REVALIDATE_ALL` the same URLs are present, every one but the metadata key is stale, and the metadata key's entry is kept |
| `GameWorker.Worker.constructor` | static/game_worker.js:2-4 | an empty cache and empty metadata |
| `GameWorker.Worker.UpdateCacheTimestamp` | static/game_worker.js:62-70 | the URL's timestamp becomes the current time and the other entries are kept |
| `GameWorker.Worker.RevalidateAll` | static/game_worker.js:352-365 | the metadata becomes the revalidated dictionary |
| `GameWorker.Worker.InvalidateUrl` | static/game_worker.js:367-383 | deletes the URL from the cache; its metadata entry is dropped iff the URL was cached |
| `GameWorker.Worker.ClearCache` | static/game_worker.js:345-350 | the cache and its stored metadata are both gone |
| `GameWorker.Worker.HandleFetch` | static/game_worker.js:308-340 | dispatches on `RouteOf`; an unhandled request changes nothing; a handled one replies and updates cache and metadata as its strategy's outcome says |
| `GameWorker.GameFileServedFromCacheFor7Days` | static/game_worker.js:217-259 | a game file cached and stamped within seven days is served from the cache without a fetch |
| `SiteWorker.IsCacheableRequest` | static/sw.js:74-115 | a cacheable request is a non-`.txt` GET to a host not on the blacklist, on the worker's own origin or an allowed domain, with a listed extension |
| `SiteWorker.CacheableIff` | static/sw.js:74-115 | the same four conditions are also sufficient |
| `SiteWorker.BlacklistWins` | static/sw.js:89-92 | a hostname containing a blacklisted entry is never cacheable |
| `SiteWorker.RouteSpec` | static/sw.js:343-374 | unhandled iff not cacheable; images from allowed domains go time-aware cache-first; game assets go cache-first; URLs ending in `.html`, `.json`, `.txt` or `.js` go network-first; the rest go time-aware cache-first |
| `SiteWorker.RouteOfOrdinary` | static/sw.js:343-374 | a cacheable request outside the allow-list that is no game asset goes network-first iff its URL ends in `.html`, `.json`, `.txt` or `.js`, and time-aware cache-first otherwise |
| `SiteWorker.TxtNeedsQuery` | static/sw.js:365 | without a query string, no cacheable request's URL ends in `.txt` |
| `SiteWorker.TxtBranchThroughQuery` | static/sw.js:365 | `/logo.png?f=.txt` is served network-first, while `/logo.png` is served time-aware cache-first |
| `SiteWorker.CacheFirstOutcome` | static/sw.js:179-208 | serves the cache iff it has a copy and fetches otherwise, answering with the network response; stores iff the response is valid and not a 206, which `cache.put` refuses; never stamps |
| `SiteWorker.NetworkFirstOutcome` | static/sw.js:127-170 | always fetches; stores iff valid and not a 206, without stamping; answers a valid response even when its put is refused; falls back to the cache; rethrows only with no copy and a failed fetch |
| `SiteWorker.TimeAwareCacheFirstOutcome` | static/sw.js:239-283 | fetches iff there is no copy or it is stale; stores and stamps iff it fetched a valid response that `cache.put` accepts; a failed fetch or a refused put (a 206) serves the stale copy, or rethrows when there is none |
| `SiteWorker.StaleWhileRevalidateOutcome` | static/sw.js:211-236 | serves the cache iff it has a copy; always fetches; stores a valid response other than a 206; settles to undefined, never a rejection, when the fetch threw and nothing was cached |
| `SiteWorker.StrategiesAreSafe` | static/sw.js:127-283 | no dispatched strategy serves a missing copy, stores an invalid response or one `cache.put` refuses, stamps without storing, or settles to undefined |
| `SiteWorker.PartialResponseNeverStored` | static/sw.js:239-283 | an ok 206 passes `isValidResponse` but no route stores or stamps it; on the time-aware route it is answered from the stale copy or fails |
| `SiteWorker.InstallDomainsSpec` | static/sw.js:24-28 | the added domains are the non-empty trimmed first fields of the manifest lines, in order, with no comma or newline |
| `SiteWorker.Worker.constructor` | static/sw.js:12-15 | the allow-list starts as `ccgstatic.com`, with an empty cache and metadata |
| `SiteWorker.Worker.Install` | static/sw.js:24-28 | the allow-list is extended with the manifest's domains, or kept when the fetch fails |
| `SiteWorker.InstallKeepsAllowed` | static/sw.js:27 | install only adds: an allowed host stays allowed |
| `SiteWorker.Worker.UpdateCacheTimestamp` | static/sw.js:294-302 | the URL's timestamp becomes the current time and the other entries are kept |
| `SiteWorker.Worker.ClearCache` | static/sw.js:379-383 | the cache and metadata are gone |
| `SiteWorker.Worker.ForceRefresh` | static/sw.js:386-393 | removes only that URL from the cache and keeps the metadata, except that deleting the metadata key `ccported-cache-metadata` forgets every timestamp |
| `SiteWorker.Worker.HandleFetch` | static/sw.js:343-374 | dispatches on `RouteOf` with the current allow-list; an unhandled request changes nothing |
| `WorkerComparison.LargeGameFileIsGameFile` | static/sw.js:56-71 | every large game file of the site worker is a game file of the game worker |
| `WorkerComparison.ValidityDiffersOnlyAt206` | static/game_worker.js:94-101 | the two validity rules differ only on an ok 206 response, which the site worker accepts as valid and the game worker refuses; since `cache.put` refuses a 206, a response passes the game worker's rule iff the site worker accepts it and `cache.put` stores it |
| `WorkerComparison.BellServerNeverCached` | static/sw.js:16-21 | nothing from the fallback Bell server is cacheable by the site worker, whatever the allow-list |
| `Helpers.Decamelize` | src/lib/helpers.ts:7-10 | the result is never shorter than the input |
| `Helpers.DecamelizeSpacesBoundaries` | src/lib/helpers.ts:7-10 | the left-to-right regex rewrite equals inserting one space at every place where a lower-case letter is followed by an upper-case one |
| `Helpers.DecamelizeLength` | src/lib/helpers.ts:9 | the result is longer by exactly the number of such boundaries |
| `Helpers.SpaceBoundariesNoBoundary` | src/lib/helpers.ts:9 | the result has no lower-upper boundary left |
| `Helpers.DecamelizeIdempotent` | src/lib/helpers.ts:7-10 | decamelizing twice equals decamelizing once |
| `Helpers.DecamelizeOnlyAddsSpaces` | src/lib/helpers.ts:9 | for input without spaces, removing the spaces from the result gives back the input |
| `Helpers.DecamelizeTwoWords` | src/lib/helpers.ts:7-10 | two boundary-free words, the first ending lower-case and the second starting upper-case, come out joined by exactly one space |
| `Helpers.DecamelizeHelloWorld` | src/lib/helpers.ts:8 | `HelloWorld` becomes `Hello World` |
| `Helpers.CapitalizeWord` | src/lib/helpers.ts:57 | same length, the first character upper-cased and the rest kept |
| `Helpers.CapitalizeWordsChars` | src/lib/helpers.ts:55-59 | split, map and join equals a per-character rule: `_` becomes a space, and a character at the start or after `_` is upper-cased |
| `Helpers.CapitalizeWordsSpec` | src/lib/helpers.ts:55-59 | no `_` is left, the length is kept, every `_` becomes a space, other characters not at a word start are kept, and the spaces are the old spaces plus the old underscores |
| `Helpers.CapitalizeWordsPieces` | src/lib/helpers.ts:56 | the number of words is one more than the number of underscores |
| `Helpers.CapitalizeWordsSingle` | src/lib/helpers.ts:55-59 | the empty string stays empty, and a single word only has its first character capitalised |
| `Helpers.TimeBetween` | src/lib/helpers.ts:76-92 | hours below 24, minutes and seconds below 60, and together they make up exactly the whole seconds of the absolute difference |
| `Helpers.TimeBetweenSymmetric` | src/lib/helpers.ts:79 | the order of the two dates does not matter |
| `Helpers.TimeBetweenUnique` | src/lib/helpers.ts:81-89 | any breakdown within those bounds that adds up to the difference is the computed one |
| `Helpers.GetTimeBetweenTokens` | src/lib/helpers.ts:91 | the text is four space-separated tokens: days, hours, minutes and seconds, in decimal, with their unit letters |

## Left out

- Logging (`console.log`, `console.error`) is left out; it has no effect on any modelled state.
- AWS initialisation in `initializeTooling` (Cognito credentials, DynamoDB and S3 clients, `awsReady`) is left out. These are calls into external libraries.
- Ad-block detection is left out. Its answer is a parameter of `ClientState.InitializeTooling`.
- `browser`, `window.location` and `performance.now()` become parameters or fields: the session's `ssr` flag, the page hostname, and the elapsed time carried by a probe.
- Each server test's fetch, iframe and `message` events are left out as I/O. Each probe is one observed outcome (`ServerTest.Probe`).
- `ServerTest.TestServer`: after the race resolves with a message, the source's timer still fires 3000 ms later and pushes a further timeout entry. That entry lands during a later server's test, and the model does not capture it. The message listener of a test that timed out also stays registered; the model does not capture the extra entries it adds when stray messages arrive later.
- `ClientState.FindServer` and `ClientState.InitializeTooling` take as a parameter what `await findServers()` settled to: `None` when the manifest fetch or `response.text()` threw, otherwise the resolved list. For the manifest outcome `f`, that is `ServerList.FindServers` of the response, and the result is then `ServerTest.FindServerSettled(f, ...)`.
- `ClientState.FindServer`: servers are tested strictly one after another, as the `await` in the loop makes them. The detached timers above are not modelled.
- Local storage is a single optional record. JSON parsing and serialisation are abstracted: a saved record replays its own fields, and parsing errors are not modelled.
- The `isAHost` closure is not persisted, and saving is skipped on the server side. The model keeps both rules, but the key name `ccported_state` is not modelled.
- `formatNumber`, `importJSON`, `updateClickCount` and the other helpers are not part of this model. They do I/O or format floating-point numbers.
- `Helpers.CapitalizeWord` upper-cases only ASCII letters, whereas JavaScript's `toUpperCase` maps all of Unicode. It also works on single UTF-16 code units.
- `Helpers.TimeBetween` takes the two dates' millisecond timestamps as integers. Invalid dates (NaN) are not modelled.
- The workers' `install` precaching, `activate` cleanup and `skipWaiting`/`clients.claim` are left out. They are cache plumbing with no decision logic.
- The message ports' replies are left out. Each message's effect is modelled as a method on the worker.
- The response body, the request headers other than `cache-control`, and the asynchronous ordering of install's manifest fetch against the first fetch events are left out. Everything the workers decide on is modelled; the rest is not.
- The cache is modelled as the set of cached URLs. `cache.put` and `cache.match` therefore store and find by URL without regard to `Vary` headers or request options.
- Each strategy's failures inside `cache.put` or the metadata store are left out, apart from `cache.put` refusing a 206 response (`CachePolicy.PutAccepts`): otherwise the model assumes the cache API succeeds.
- `isFileStale` errors are left out. In the source they are read as stale; the model reads the dictionary directly.
- URL parsing (`new URL`) is left out. A request carries its already parsed origin, hostname, pathname, query and parameters, and `Href` rebuilds the serialised URL from them.
- `ServerTest.Verdict`: the embed's message payload is a string compared by exact equality with `===NOT_BLOCKED===`. The source compares a structured-clone value with loose `==`, so a one-element array holding that string, or a `String` object, would also count as not blocked; the model does not capture those payloads.
- `GameWorker.Worker.InvalidateUrl`: `cache.delete` resolves a relative URL against the worker's location, while the metadata dictionary is keyed by the raw string. The model uses the raw string for both, so it does not capture a relative URL whose cache entry is deleted while its timestamp is kept.
- `GameWorker.Worker.InvalidateUrl`: invalidating the URL `game-cache-metadata` deletes the stored metadata dictionary itself. The model keeps the metadata apart from the cached URLs and does not capture this.
- URL fragments are not modelled. `Href` rebuilds the URL from origin, pathname and query only, so the `.html`/`.json`/`.txt`/`.js` suffix tests of the site worker are modelled for URLs without a fragment.
- `SiteWorker.Worker.ForceRefresh`: `cache.delete` resolves a relative URL against the worker's location, so `/index.html` deletes the cached absolute URL. The model removes the raw string from the set of absolute URLs and does not capture this resolution.
- `SiteWorker.Worker`: one object stands for one lifetime of the worker script. The browser may stop an idle worker and run `sw.js` again for a later event without firing `install`. `ALLOWED_DOMAINS` then goes back to `["ccgstatic.com"]` while Cache Storage keeps `cachedUrls` and `metadata`. The model does not capture this restart: the domains added at install stay for good.
- `GameWorker.Worker.HandleFetch`: the background revalidation of a stale copy (static/game_worker.js:272-282) is a detached promise. It may finish after later fetch events, or not at all. The model applies its store and stamp within the same event.
- `SiteWorker.Worker.HandleFetch`: the site worker does not await its `cache.put` in cache-first, network-first and stale-while-revalidate (static/sw.js:144, 199, 225). The model applies each store within the same event.
