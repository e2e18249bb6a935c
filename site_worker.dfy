/**
 * The service worker of the site itself (static/sw.js): which requests it
 * caches (a `.txt` and method rule, a blacklist of hosts checked before the
 * allow-list of domains, the site's own origin, an extension list), which
 * strategy answers each of them, what each strategy does, and the list of
 * allowed domains that grows at install time from `/servers.txt`.
 */
module SiteWorker {
  import opened Wrappers
  import opened Strings
  import opened CachePolicy

  /** The domains `ALLOWED_DOMAINS` starts with. */
  const InitialAllowedDomains: seq<string> := ["ccgstatic.com"]

  /** `CACHE_METADATA_KEY`: the cache entry under which the metadata dictionary is stored. */
  const MetadataKey: string := "ccported-cache-metadata"

  /** Hosts never cached, matched as substrings of the hostname. */
  const Blacklist: seq<string> := ["pagead2.googlesyndication.com", "storage.ko-fi.com", "www.google-analytics.com", "amazonaws.com"]

  /** The pathname suffixes of cacheable files. */
  const Extensions: seq<string> := [".html", ".js", ".css", ".json",
                                    ".png", ".jpg", ".jpeg", ".gif", ".webp", ".svg",
                                    ".woff", ".woff2", ".ttf", ".otf",
                                    ".mp3", ".ogg", ".wav",
                                    ".mp4", ".webm",
                                    ".data", ".wasm", ".bundle", ".unity3d", ".pak", ".bin"]

  /** The suffixes of `/\.(png|jpg|jpeg|gif|webp|svg)$/i`, matched ignoring ASCII case. */
  const ImageExtensions: seq<string> := [".png", ".jpg", ".jpeg", ".gif", ".webp", ".svg"]

  /** `domains.some(d => hostname.includes(d))`. */
  predicate AnyContained(hostname: string, domains: seq<string>) {
    exists i :: 0 <= i < |domains| && Contains(hostname, domains[i])
  }

  /** `suffixes.some(x => s.endsWith(x))`. */
  predicate AnySuffix(s: string, suffixes: seq<string>) {
    exists i :: 0 <= i < |suffixes| && EndsWith(s, suffixes[i])
  }

  /** `isLargeGameFile`: a game-data extension, or `assets/` or `gamedata/` in the pathname. */
  predicate IsLargeGameFile(url: Url) {
    var p := url.pathname;
    || EndsWith(p, ".data") || EndsWith(p, ".wasm") || EndsWith(p, ".bundle")
    || EndsWith(p, ".unity3d") || EndsWith(p, ".pak") || EndsWith(p, ".bin")
    || Contains(p, "assets/") || Contains(p, "gamedata/")
  }

  /** `isValidResponse`: an ok 2xx response other than 209; 206 is accepted. */
  predicate IsValidResponse(r: Response) {
    r.ok && 200 <= r.status < 300 && r.status != 209
  }

  /** `isCacheableRequest` with the current `ALLOWED_DOMAINS` and the worker's own origin, checks in the source's order. */
  function IsCacheableRequest(request: Request, allowed: seq<string>, selfOrigin: string): (b: bool)
    ensures b ==> request.verb == "GET" && !EndsWith(request.url.pathname, ".txt")
    ensures b ==> !AnyContained(request.url.hostname, Blacklist)
    ensures b ==> request.url.origin == selfOrigin || AnyContained(request.url.hostname, allowed)
    ensures b ==> AnySuffix(request.url.pathname, Extensions)
  {
    var url := request.url;
    if EndsWith(url.pathname, ".txt") then false
    else if request.verb != "GET" then false
    else if AnyContained(url.hostname, Blacklist) then false
    else if url.origin != selfOrigin && !AnyContained(url.hostname, allowed) then false
    else AnySuffix(url.pathname, Extensions)
  }

  /** The request passes every rule in front of the extension test. */
  lemma CacheableIff(request: Request, allowed: seq<string>, selfOrigin: string)
    ensures IsCacheableRequest(request, allowed, selfOrigin) <==>
      && !EndsWith(request.url.pathname, ".txt") && request.verb == "GET"
      && !AnyContained(request.url.hostname, Blacklist)
      && (request.url.origin == selfOrigin || AnyContained(request.url.hostname, allowed))
      && AnySuffix(request.url.pathname, Extensions)
  {
  }

  /** A blacklisted host is refused whatever the allow-list holds, the site's own origin included. */
  lemma BlacklistWins(request: Request, allowed: seq<string>, selfOrigin: string, i: nat)
    requires i < |Blacklist| && Contains(request.url.hostname, Blacklist[i])
    ensures !IsCacheableRequest(request, allowed, selfOrigin)
  {
  }

  /** The handlers of the fetch listener; `Untouched` means no `respondWith`. */
  datatype Route = Untouched | TimeAwareCacheFirst | CacheFirst | NetworkFirst

  /** `/\.(png|jpg|jpeg|gif|webp|svg)$/i.test(url.pathname)`. */
  predicate IsImage(url: Url) {
    AnySuffix(LowerAscii(url.pathname), ImageExtensions)
  }

  /**
   * The fetch listener's choice: an image on an allowed domain, a URL with
   * `game_` or a large game file, an html/json/txt/js URL, anything else.
   * Only the image test looks at the pathname; the others look at the whole
   * URL, query included.
   */
  function RouteOf(request: Request, allowed: seq<string>, selfOrigin: string): Route {
    var href := Href(request.url);
    if request.verb != "GET" then Untouched
    else if !IsCacheableRequest(request, allowed, selfOrigin) then Untouched
    else if IsImage(request.url) && AnyContained(request.url.hostname, allowed) then TimeAwareCacheFirst
    else if Contains(href, "game_") || IsLargeGameFile(request.url) then CacheFirst
    else if EndsWith(href, ".html") || EndsWith(href, ".json") || EndsWith(href, ".txt") || EndsWith(href, ".js") then NetworkFirst
    else TimeAwareCacheFirst
  }

  /** A request is handled exactly when it is cacheable; cache-first takes game assets that are not images on an allowed domain. */
  lemma RouteSpec(request: Request, allowed: seq<string>, selfOrigin: string)
    ensures RouteOf(request, allowed, selfOrigin) == Untouched <==> !IsCacheableRequest(request, allowed, selfOrigin)
    ensures RouteOf(request, allowed, selfOrigin) == CacheFirst <==>
      (&& IsCacheableRequest(request, allowed, selfOrigin)
       && !(IsImage(request.url) && AnyContained(request.url.hostname, allowed))
       && (Contains(Href(request.url), "game_") || IsLargeGameFile(request.url)))
    ensures IsCacheableRequest(request, allowed, selfOrigin) && IsImage(request.url) && AnyContained(request.url.hostname, allowed)
            ==> RouteOf(request, allowed, selfOrigin) == TimeAwareCacheFirst
  {
  }

  /** Whether `a + b` ends in `p` depends only on `b` when `p` is no longer than `b`. */
  lemma EndsWithConcat(a: string, b: string, p: string)
    requires |p| <= |b|
    ensures EndsWith(a + b, p) <==> EndsWith(b, p)
  {
    assert (a + b)[|a + b| - |p|..] == b[|b| - |p|..];
  }

  /**
   * Without a query string, a cacheable URL never ends in `.txt`: its
   * pathname does not, and a shorter pathname starts with `/`, which `.txt`
   * does not contain. The `.txt` test of the dispatch is reachable only
   * through the query string.
   */
  lemma TxtNeedsQuery(request: Request, allowed: seq<string>, selfOrigin: string)
    requires request.url.search == "" && |request.url.pathname| > 0 && request.url.pathname[0] == '/'
    requires IsCacheableRequest(request, allowed, selfOrigin)
    ensures !EndsWith(Href(request.url), ".txt")
  {
    var u := request.url;
    assert Href(u) == u.origin + u.pathname;
    if |u.pathname| >= 4 {
      EndsWithConcat(u.origin, u.pathname, ".txt");
    }
  }

  /**
   * With a query string ending in `.txt` the branch is taken: a same-origin
   * `/logo.png?f=.txt` on a host outside the allow-list goes to
   * network-first, while `/logo.png` alone goes to time-aware cache-first.
   */
  lemma TxtBranchThroughQuery(request: Request, allowed: seq<string>, selfOrigin: string)
    requires request.url.pathname == "/logo.png" && request.url.search == "?f=.txt" && request.verb == "GET"
    requires request.url.origin == selfOrigin
    requires !AnyContained(request.url.hostname, Blacklist) && !AnyContained(request.url.hostname, allowed)
    requires !Contains(Href(request.url), "game_") && !Contains(Href(request.url.(search := "")), "game_")
    ensures RouteOf(request, allowed, selfOrigin) == NetworkFirst
    ensures RouteOf(request.(url := request.url.(search := "")), allowed, selfOrigin) == TimeAwareCacheFirst
  {
    var u := request.url;
    var bare := request.(url := u.(search := ""));
    LogoIsCacheable(request, allowed, selfOrigin);
    LogoIsNoGameFile(u);
    RouteOfOrdinary(request, allowed, selfOrigin);
    QuerySuffix(u.origin + u.pathname, u.search);
    LogoIsCacheable(bare, allowed, selfOrigin);
    LogoIsNoGameFile(bare.url);
    RouteOfOrdinary(bare, allowed, selfOrigin);
    assert Href(bare.url) == u.origin + u.pathname;
    LogoSuffixes(u.origin, u.pathname);
  }

  /** A cacheable request off the allow-list that is no game asset is routed on its URL's suffix alone. */
  lemma RouteOfOrdinary(request: Request, allowed: seq<string>, selfOrigin: string)
    requires IsCacheableRequest(request, allowed, selfOrigin) && !AnyContained(request.url.hostname, allowed)
    requires !Contains(Href(request.url), "game_") && !IsLargeGameFile(request.url)
    ensures var href := Href(request.url);
      RouteOf(request, allowed, selfOrigin)
      == if EndsWith(href, ".html") || EndsWith(href, ".json") || EndsWith(href, ".txt") || EndsWith(href, ".js")
         then NetworkFirst else TimeAwareCacheFirst
  {
  }

  /** A same-origin GET of `/logo.png` on a host off the blacklist is cacheable, whatever its query. */
  lemma LogoIsCacheable(request: Request, allowed: seq<string>, selfOrigin: string)
    requires request.url.pathname == "/logo.png" && request.verb == "GET" && request.url.origin == selfOrigin
    requires !AnyContained(request.url.hostname, Blacklist)
    ensures IsCacheableRequest(request, allowed, selfOrigin)
  {
    var p := request.url.pathname;
    assert p[|p| - 4..] == ".png";
    assert EndsWith(p, Extensions[4]);
    assert p[|p| - 4..] != ".txt";
  }

  /** `/logo.png` is not a large game file. */
  lemma LogoIsNoGameFile(u: Url)
    requires u.pathname == "/logo.png"
    ensures !IsLargeGameFile(u)
  {
    var p := u.pathname;
    assert 'a' !in p;
    ContainsMembers(p, "assets/");
    ContainsMembers(p, "gamedata/");
    assert p[|p| - 1] == 'g';
    LastCharRulesOut(p, ".data");
    LastCharRulesOut(p, ".wasm");
    LastCharRulesOut(p, ".bundle");
    LastCharRulesOut(p, ".unity3d");
    LastCharRulesOut(p, ".pak");
    LastCharRulesOut(p, ".bin");
  }

  /** A string cannot end in a suffix whose last character differs from its own. */
  lemma LastCharRulesOut(s: string, suffix: string)
    requires |s| > 0 && |suffix| > 0 && s[|s| - 1] != suffix[|suffix| - 1]
    ensures !EndsWith(s, suffix)
  {
    if |suffix| <= |s| {
      assert s[|s| - |suffix|..][|suffix| - 1] == s[|s| - 1];
    }
  }

  /** An URL ending in `/logo.png` ends in none of the network-first suffixes. */
  lemma LogoSuffixes(origin: string, p: string)
    requires p == "/logo.png"
    ensures !EndsWith(origin + p, ".html") && !EndsWith(origin + p, ".json")
    ensures !EndsWith(origin + p, ".txt") && !EndsWith(origin + p, ".js")
  {
    EndsWithConcat(origin, p, ".html");
    EndsWithConcat(origin, p, ".json");
    EndsWithConcat(origin, p, ".txt");
    EndsWithConcat(origin, p, ".js");
    assert p[|p| - 5..] == "o.png" && p[|p| - 4..] == ".png" && p[|p| - 3..] == "png";
  }

  /** Facts about the query `?f=.txt` after a URL prefix. */
  lemma QuerySuffix(prefix: string, q: string)
    requires q == "?f=.txt"
    ensures EndsWith(prefix + q, ".txt")
    ensures !EndsWith(prefix + q, ".html") && !EndsWith(prefix + q, ".json") && !EndsWith(prefix + q, ".js")
  {
    EndsWithConcat(prefix, q, ".txt");
    EndsWithConcat(prefix, q, ".html");
    EndsWithConcat(prefix, q, ".json");
    EndsWithConcat(prefix, q, ".js");
  }

  /** The network answered with a response that passes `isValidResponse` and that `cache.put` then stores. */
  predicate Storable(network: Network) {
    network.Replied? && IsValidResponse(network.response) && PutAccepts(network.response)
  }

  /** The network answered with a response that passes `isValidResponse` but that `cache.put` refuses (a 206). */
  predicate PutRefused(network: Network) {
    network.Replied? && IsValidResponse(network.response) && !PutAccepts(network.response)
  }

  /**
   * `cacheFirstStrategy`: a cached copy is answered without the network; a
   * stored response is not stamped. The put is not awaited, so a refused put
   * stores nothing but does not change the reply.
   */
  function CacheFirstOutcome(cached: bool, network: Network): (o: Outcome)
    ensures cached <==> o.reply == FromCache
    ensures cached <==> !o.fetched
    ensures !o.stamped
    ensures o.stored <==> !cached && Storable(network)
    ensures o.reply == Rethrow <==> !cached && network.NetworkThrew?
    ensures !cached && network.Replied? ==> o.reply == FromNetwork(network.response)
  {
    if cached then Outcome(FromCache, false, false, false)
    else match network
      case NetworkThrew => Outcome(Rethrow, true, false, false)
      case Replied(r) => Outcome(FromNetwork(r), true, IsValidResponse(r) && PutAccepts(r), false)
  }

  /**
   * `networkFirstStrategy`: like the game worker's, but a stored response is
   * not stamped, and a valid response is answered even when the put, which
   * is not awaited, refuses it.
   */
  function NetworkFirstOutcome(cached: bool, network: Network): (o: Outcome)
    ensures o.fetched && !o.stamped
    ensures o.stored <==> Storable(network)
    ensures o.reply == FromCache <==> cached && !(network.Replied? && IsValidResponse(network.response))
    ensures o.reply == Rethrow <==> !cached && network.NetworkThrew?
  {
    match network
    case NetworkThrew => Outcome(if cached then FromCache else Rethrow, true, false, false)
    case Replied(r) =>
      if IsValidResponse(r) then Outcome(FromNetwork(r), true, PutAccepts(r), false)
      else if cached then Outcome(FromCache, true, false, false)
      else Outcome(FromNetwork(r), true, false, false)
  }

  /**
   * `timeAwareCacheFirstStrategy`: a fresh cached copy is answered;
   * otherwise the network, with the stale copy as fallback. The put is
   * awaited, so a refused put lands in the same `catch` as a failed fetch:
   * the stale copy is answered if there is one, the error rethrown if not,
   * and nothing is stored or stamped.
   */
  function TimeAwareCacheFirstOutcome(cached: bool, stale: bool, network: Network): (o: Outcome)
    ensures o.fetched <==> !cached || stale
    ensures o.reply == FromCache <==> cached && (!stale || network.NetworkThrew? || PutRefused(network))
    ensures o.reply == Rethrow <==> !cached && (network.NetworkThrew? || PutRefused(network))
    ensures o.stored <==> o.stamped
    ensures o.stored <==> o.fetched && Storable(network)
  {
    if cached && !stale then Outcome(FromCache, false, false, false)
    else match network
      case NetworkThrew => Outcome(if cached then FromCache else Rethrow, true, false, false)
      case Replied(r) =>
        if IsValidResponse(r) && !PutAccepts(r) then Outcome(if cached then FromCache else Rethrow, true, false, false)
        else Outcome(FromNetwork(r), true, IsValidResponse(r), IsValidResponse(r))
  }

  /**
   * `staleWhileRevalidateStrategy`, which no route uses: it always fetches;
   * it answers the cached copy if any, else the network response, and
   * `undefined` when the fetch rejected (the rejection is swallowed). The
   * put is not awaited.
   */
  function StaleWhileRevalidateOutcome(cached: bool, network: Network): (o: Outcome)
    ensures o.fetched && !o.stamped
    ensures cached <==> o.reply == FromCache
    ensures o.stored <==> Storable(network)
    ensures o.reply == NoReply <==> !cached && network.NetworkThrew?
    ensures o.reply != Rethrow
  {
    var store := Storable(network);
    if cached then Outcome(FromCache, true, store, false)
    else match network
      case NetworkThrew => Outcome(NoReply, true, false, false)
      case Replied(r) => Outcome(FromNetwork(r), true, store, false)
  }

  /** The outcome of the strategy a handled route runs. */
  function StrategyOutcome(route: Route, cached: bool, stale: bool, network: Network): Outcome
    requires route != Untouched
  {
    match route
    case TimeAwareCacheFirst => TimeAwareCacheFirstOutcome(cached, stale, network)
    case CacheFirst => CacheFirstOutcome(cached, network)
    case NetworkFirst => NetworkFirstOutcome(cached, network)
  }

  /** Every route answers from the cache only when a copy is cached and stores only a valid response. */
  lemma StrategiesAreSafe(route: Route, cached: bool, stale: bool, network: Network)
    requires route != Untouched
    ensures StrategyOutcome(route, cached, stale, network).reply == FromCache ==> cached
    ensures StrategyOutcome(route, cached, stale, network).stored ==> network.Replied? && IsValidResponse(network.response)
    ensures StrategyOutcome(route, cached, stale, network).stored ==> PutAccepts(network.response)
    ensures StrategyOutcome(route, cached, stale, network).stamped ==> StrategyOutcome(route, cached, stale, network).stored
    ensures StrategyOutcome(route, cached, stale, network).reply != NoReply
  {
  }

  /**
   * An ok partial (206) response passes `isValidResponse` but is never
   * cached; on the time-aware route, which awaits the put, the request is
   * answered from the stale copy or fails, never with the network response.
   */
  lemma PartialResponseNeverStored(route: Route, cached: bool, stale: bool, r: Response)
    requires route != Untouched && r.ok && r.status == 206
    ensures IsValidResponse(r)
    ensures !StrategyOutcome(route, cached, stale, Replied(r)).stored
    ensures !StrategyOutcome(route, cached, stale, Replied(r)).stamped
    ensures route == TimeAwareCacheFirst && (!cached || stale) ==>
      StrategyOutcome(route, cached, stale, Replied(r)).reply == (if cached then FromCache else Rethrow)
  {
  }

  /** The first comma field of each `servers.txt` line, trimmed. */
  function FirstFields(lines: seq<string>): (r: seq<string>)
    ensures |r| == |lines|
  {
    seq(|lines|, i requires 0 <= i < |lines| => Trim(Split(lines[i], ',')[0]))
  }

  /** The domains install appends: the non-empty trimmed first fields of the lines of `text`. */
  function InstallDomains(text: string): seq<string> {
    KeepNonEmpty(FirstFields(Split(text, '\n')))
  }

  /**
   * Every domain install adds is non-empty, without a comma or line break,
   * and trimmed; the k-th one is the first field of the line at the k-th
   * non-blank position, and every line with a non-blank first field
   * contributes one.
   */
  lemma InstallDomainsSpec(text: string)
    ensures forall k :: 0 <= k < |InstallDomains(text)| ==>
      var d := InstallDomains(text)[k];
      |d| > 0 && ',' !in d && '\n' !in d && !IsWhiteSpace(d[0]) && !IsWhiteSpace(d[|d| - 1])
    ensures |InstallDomains(text)| == |NonEmptyPositions(FirstFields(Split(text, '\n')))|
    ensures forall k :: 0 <= k < |InstallDomains(text)| ==>
      InstallDomains(text)[k] == FirstFields(Split(text, '\n'))[NonEmptyPositions(FirstFields(Split(text, '\n')))[k]]
  {
    var lines := Split(text, '\n');
    var fields := FirstFields(lines);
    KeepNonEmptyAt(fields);
    var r := InstallDomains(text);
    var pos := NonEmptyPositions(fields);
    forall k | 0 <= k < |r|
      ensures ',' !in r[k] && '\n' !in r[k]
    {
      assert r[k] == fields[pos[k]];
      FirstFieldIsClean(lines[pos[k]]);
    }
  }

  /** The trimmed first field of a line holds neither a comma nor a line break. */
  lemma FirstFieldIsClean(line: string)
    requires '\n' !in line
    ensures ',' !in Trim(Split(line, ',')[0]) && '\n' !in Trim(Split(line, ',')[0])
  {
    SplitHeadInfix(line, ',');
  }

  /** A split's first piece is a prefix of the string, so it holds no character the string lacks. */
  lemma {:induction false} SplitHeadInfix(s: string, sep: char)
    ensures forall c :: c in Split(s, sep)[0] ==> c in s
    decreases |s|
  {
    if |s| > 0 && s[0] != sep {
      SplitHeadInfix(s[1..], sep);
      assert forall c :: c in s[1..] ==> c in s;
    }
  }

  /** The worker's global state: its origin, `ALLOWED_DOMAINS`, the URLs in its cache and the metadata dictionary. */
  class Worker {
    const selfOrigin: string
    var allowedDomains: seq<string>
    var cachedUrls: set<string>
    var metadata: map<string, int>

    /** A worker as loaded: the initial allow-list, nothing cached. */
    constructor (selfOrigin: string)
      ensures this.selfOrigin == selfOrigin
      ensures allowedDomains == InitialAllowedDomains && cachedUrls == {} && metadata == map[]
    {
      this.selfOrigin := selfOrigin;
      allowedDomains := InitialAllowedDomains;
      cachedUrls := {};
      metadata := map[];
    }

    /**
     * The install handler's `/servers.txt` step: when the fetch and its
     * body resolve to `text` (whatever the status), the non-empty trimmed
     * first fields of its lines are appended; otherwise nothing changes.
     */
    method Install(serversTxt: Option<string>)
      modifies this`allowedDomains
      ensures allowedDomains == old(allowedDomains) + (if serversTxt.Some? then InstallDomains(serversTxt.value) else [])
    {
      if serversTxt.Some? {
        allowedDomains := allowedDomains + InstallDomains(serversTxt.value);
      }
    }

    /** `updateCacheTimestamp(url)`: `metadata[url] = now`, nothing else changes. */
    method UpdateCacheTimestamp(url: string, now: int)
      modifies this`metadata
      ensures metadata == old(metadata)[url := now]
    {
      metadata := metadata[url := now];
    }

    /** `CLEAR_CACHE`: deletes the whole cache, the metadata entry with it. */
    method ClearCache()
      modifies this`cachedUrls, this`metadata
      ensures cachedUrls == {} && metadata == map[]
    {
      cachedUrls := {};
      metadata := map[];
    }

    /**
     * `FORCE_REFRESH`: deletes the URL from the cache. Its timestamp stays,
     * unless the URL is the metadata key itself: then the stored dictionary
     * is deleted and every URL reads as stale afterwards.
     */
    method ForceRefresh(url: string)
      modifies this`cachedUrls, this`metadata
      ensures cachedUrls == old(cachedUrls) - {url}
      ensures metadata == if url == MetadataKey then map[] else old(metadata)
    {
      cachedUrls := cachedUrls - {url};
      if url == MetadataKey {
        metadata := map[];
      }
    }

    /** The fetch listener at time `now` with what the network does. */
    method HandleFetch(request: Request, network: Network, now: int) returns (route: Route, reply: Option<Reply>)
      modifies this`cachedUrls, this`metadata
      ensures route == RouteOf(request, allowedDomains, selfOrigin)
      ensures route == Untouched ==> reply.None? && cachedUrls == old(cachedUrls) && metadata == old(metadata)
      ensures route != Untouched ==>
        var o := StrategyOutcome(route, Href(request.url) in old(cachedUrls), IsFileStale(old(metadata), Href(request.url), now), network);
        && reply == Some(o.reply)
        && cachedUrls == (if o.stored then old(cachedUrls) + {Href(request.url)} else old(cachedUrls))
        && metadata == (if o.stamped then old(metadata)[Href(request.url) := now] else old(metadata))
    {
      route := RouteOf(request, allowedDomains, selfOrigin);
      if route == Untouched {
        reply := None;
        return;
      }
      var url := Href(request.url);
      var o := StrategyOutcome(route, url in cachedUrls, IsFileStale(metadata, url, now), network);
      reply := Some(o.reply);
      if o.stored {
        cachedUrls := cachedUrls + {url};
      }
      if o.stamped {
        UpdateCacheTimestamp(url, now);
      }
    }
  }

  /** Installing never removes or reorders a domain: the allow-list only grows, so a host allowed before stays allowed. */
  lemma InstallKeepsAllowed(before: seq<string>, added: seq<string>, hostname: string)
    requires AnyContained(hostname, before)
    ensures AnyContained(hostname, before + added)
  {
    var i :| 0 <= i < |before| && Contains(hostname, before[i]);
    assert (before + added)[i] == before[i];
  }
}
