/**
 * The service worker that runs on the game servers (static/game_worker.js):
 * which requests it caches, which strategy answers each of them, what each
 * strategy does given whether a cached copy exists, whether it is stale and
 * what the network does, and the maintenance messages that update the
 * URL-to-timestamp metadata.
 */
module GameWorker {
  import opened Wrappers
  import opened Strings
  import opened CachePolicy

  /** The key of the metadata entry in the cache; `REVALIDATE_ALL` never zeroes it. */
  const MetadataKey: string := "game-cache-metadata"

  /** `isGameFile`: the pathname contains `game_`, `assets/` or `gamedata/`, or ends with a game-data extension. */
  predicate IsGameFile(url: Url) {
    var p := url.pathname;
    || Contains(p, "game_")
    || EndsWith(p, ".data") || EndsWith(p, ".wasm") || EndsWith(p, ".bundle") || EndsWith(p, ".unity3d")
    || EndsWith(p, ".pak") || EndsWith(p, ".bin") || EndsWith(p, ".spritemap")
    || Contains(p, "assets/") || Contains(p, "gamedata/")
  }

  /** `isValidResponse`: an ok 2xx response other than 206 (partial) and 209. */
  predicate IsValidResponse(r: Response) {
    r.ok && 200 <= r.status < 300 && r.status != 206 && r.status != 209
  }

  /** The query asks to bypass the cache: `cache=false` (first value) or a cache-busting key. */
  predicate BustsCache(params: seq<Param>) {
    || (HasParam(params, "cache") && GetParam(params, "cache") == Some("false"))
    || HasParam(params, "cacheBust") || HasParam(params, "cachebust") || HasParam(params, "bust")
    || HasParam(params, "v") || HasParam(params, "version")
  }

  /** `isCacheableRequest`, its checks in the source's order. */
  function IsCacheableRequest(request: Request): (b: bool)
    ensures b ==> request.verb == "GET" && !EndsWith(request.url.pathname, ".txt")
  {
    if BustsCache(request.url.params) then false
    else if EndsWith(request.url.pathname, ".txt") then false
    else if request.verb != "GET" then false
    else if request.cacheControl == Some("no-cache") then false
    else true
  }

  /** The handlers of the fetch listener; `Untouched` means no `respondWith`. */
  datatype Route = Untouched | TimeAwareCacheFirst | NetworkFirst | TimeAwareStaleWhileRevalidate

  /** The fetch listener's choice of strategy. */
  function RouteOf(request: Request): Route {
    if request.verb != "GET" then Untouched
    else if !IsCacheableRequest(request) then Untouched
    else if IsGameFile(request.url) then TimeAwareCacheFirst
    else if EndsWith(request.url.pathname, ".html") || EndsWith(request.url.pathname, ".json") then NetworkFirst
    else if EndsWith(request.url.pathname, ".js") then NetworkFirst
    else TimeAwareStaleWhileRevalidate
  }

  /**
   * A request is left to the browser exactly when `isCacheableRequest`
   * refuses it; among handled requests game files go to time-aware
   * cache-first, other html/json/js to network-first and the rest to
   * stale-while-revalidate.
   */
  lemma RouteSpec(request: Request)
    ensures RouteOf(request) == Untouched <==>
      (|| BustsCache(request.url.params) || EndsWith(request.url.pathname, ".txt")
       || request.verb != "GET" || request.cacheControl == Some("no-cache"))
    ensures RouteOf(request) == TimeAwareCacheFirst <==> RouteOf(request) != Untouched && IsGameFile(request.url)
    ensures RouteOf(request) == NetworkFirst <==>
      (RouteOf(request) != Untouched && !IsGameFile(request.url)
       && (EndsWith(request.url.pathname, ".html") || EndsWith(request.url.pathname, ".json") || EndsWith(request.url.pathname, ".js")))
  {
  }

  /** A `.txt` path, a cache-busting query or a non-GET method is never handled. */
  lemma NeverHandled(request: Request)
    ensures EndsWith(request.url.pathname, ".txt") ==> RouteOf(request) == Untouched
    ensures request.verb != "GET" ==> RouteOf(request) == Untouched
    ensures HasParam(request.url.params, "v") ==> RouteOf(request) == Untouched
  {
  }

  /**
   * `cache=false` busts the cache only as the first `cache` value: a later
   * `cache=false` behind `cache=true` is ignored.
   */
  lemma FirstCacheValueDecides(url: Url)
    requires url.params == [Param("cache", "true"), Param("cache", "false")]
    ensures !BustsCache(url.params)
  {
    assert GetParam(url.params, "cache") == Some("true");
    assert !HasParam(url.params, "cacheBust") && !HasParam(url.params, "cachebust") && !HasParam(url.params, "bust");
    assert !HasParam(url.params, "v") && !HasParam(url.params, "version");
  }

  /** `networkFirstStrategy`. */
  function NetworkFirstOutcome(cached: bool, network: Network): (o: Outcome)
    ensures o.fetched
    ensures o.stored <==> o.stamped
    ensures o.stored <==> network.Replied? && IsValidResponse(network.response)
    ensures o.reply == FromCache <==> cached && !(network.Replied? && IsValidResponse(network.response))
    ensures o.reply == Rethrow <==> !cached && network.NetworkThrew?
    ensures o.reply.FromNetwork? ==> network == Replied(o.reply.response)
  {
    match network
    case NetworkThrew =>
      Outcome(if cached then FromCache else Rethrow, true, false, false)
    case Replied(r) =>
      if IsValidResponse(r) then Outcome(FromNetwork(r), true, true, true)
      else if cached then Outcome(FromCache, true, false, false)
      else Outcome(FromNetwork(r), true, false, false)
  }

  /** `timeAwareCacheFirstStrategy`. */
  function TimeAwareCacheFirstOutcome(cached: bool, stale: bool, network: Network): (o: Outcome)
    ensures o.fetched <==> !cached || stale
    ensures o.reply == FromCache <==> cached && (!stale || network.NetworkThrew?)
    ensures o.reply == Rethrow <==> !cached && network.NetworkThrew?
    ensures o.stored <==> o.stamped
    ensures o.stored <==> o.fetched && network.Replied? && IsValidResponse(network.response)
    ensures o.reply.FromNetwork? ==> o.fetched && network == Replied(o.reply.response)
  {
    if cached && !stale then Outcome(FromCache, false, false, false)
    else match network
      case NetworkThrew => Outcome(if cached then FromCache else Rethrow, true, false, false)
      case Replied(r) => Outcome(FromNetwork(r), true, IsValidResponse(r), IsValidResponse(r))
  }

  /**
   * `timeAwareStaleWhileRevalidateStrategy`: a cached copy is answered at
   * once and, when stale, refreshed in the background; without one the
   * network answers and a rejection is not caught.
   */
  function TimeAwareStaleWhileRevalidateOutcome(cached: bool, stale: bool, network: Network): (o: Outcome)
    ensures cached ==> o.reply == FromCache
    ensures o.fetched <==> !cached || stale
    ensures o.stored <==> o.stamped
    ensures o.stored <==> o.fetched && network.Replied? && IsValidResponse(network.response)
    ensures !cached ==> (o.reply == Rethrow <==> network.NetworkThrew?)
    ensures !cached && network.Replied? ==> o.reply == FromNetwork(network.response)
  {
    var fetched := !cached || stale;
    var store := fetched && network.Replied? && IsValidResponse(network.response);
    if cached then Outcome(FromCache, fetched, store, store)
    else match network
      case NetworkThrew => Outcome(Rethrow, true, false, false)
      case Replied(r) => Outcome(FromNetwork(r), true, store, store)
  }

  /** The outcome of the strategy a handled route runs. */
  function StrategyOutcome(route: Route, cached: bool, stale: bool, network: Network): Outcome
    requires route != Untouched
  {
    match route
    case TimeAwareCacheFirst => TimeAwareCacheFirstOutcome(cached, stale, network)
    case NetworkFirst => NetworkFirstOutcome(cached, network)
    case TimeAwareStaleWhileRevalidate => TimeAwareStaleWhileRevalidateOutcome(cached, stale, network)
  }

  /**
   * Every strategy answers from the cache only when a copy is cached, stores
   * only a valid network response and stamps exactly what it stores.
   */
  lemma StrategiesAreSafe(route: Route, cached: bool, stale: bool, network: Network)
    requires route != Untouched
    ensures StrategyOutcome(route, cached, stale, network).reply == FromCache ==> cached
    ensures StrategyOutcome(route, cached, stale, network).stored ==> network.Replied? && IsValidResponse(network.response)
    ensures StrategyOutcome(route, cached, stale, network).stored == StrategyOutcome(route, cached, stale, network).stamped
    ensures StrategyOutcome(route, cached, stale, network).reply.FromNetwork? ==>
      network == Replied(StrategyOutcome(route, cached, stale, network).reply.response)
  {
  }

  /** Map with every entry except the metadata key set to 0: what `REVALIDATE_ALL` saves. */
  function Revalidated(metadata: map<string, int>): map<string, int> {
    map u | u in metadata :: if u == MetadataKey then metadata[u] else 0
  }

  /** After `REVALIDATE_ALL` every URL reads as stale at any time; the set of keys and the metadata key's entry stay the same. */
  lemma RevalidatedIsStale(metadata: map<string, int>, now: int)
    ensures Revalidated(metadata).Keys == metadata.Keys
    ensures forall u :: u in metadata && u != MetadataKey ==> IsFileStale(Revalidated(metadata), u, now)
    ensures MetadataKey in metadata ==> Revalidated(metadata)[MetadataKey] == metadata[MetadataKey]
  {
  }

  /** The worker's state: the URLs held in `game-cache-v1` and the metadata dictionary stored among them. */
  class Worker {
    var cachedUrls: set<string>
    var metadata: map<string, int>

    /** A freshly installed worker: nothing precached (the precache list is empty), no metadata. */
    constructor ()
      ensures cachedUrls == {} && metadata == map[]
    {
      cachedUrls := {};
      metadata := map[];
    }

    /** `isFileStale(url)` at time `now`. */
    predicate Stale(url: string, now: int)
      reads this
    {
      IsFileStale(metadata, url, now)
    }

    /** `updateCacheTimestamp(url)`: `metadata[url] = now`, nothing else changes. */
    method UpdateCacheTimestamp(url: string, now: int)
      modifies this`metadata
      ensures metadata == old(metadata)[url := now]
    {
      metadata := metadata[url := now];
    }

    /** `REVALIDATE_ALL`: every key of the metadata but the metadata key is set to 0, one key at a time. */
    method RevalidateAll()
      modifies this`metadata
      ensures metadata == Revalidated(old(metadata))
    {
      var pending := metadata.Keys;
      ghost var start := metadata;
      ghost var done: set<string> := {};
      while pending != {}
        invariant pending + done == start.Keys && pending !! done
        invariant metadata.Keys == start.Keys
        invariant forall u :: u in pending ==> metadata[u] == start[u]
        invariant forall u :: u in done ==> metadata[u] == if u == MetadataKey then start[u] else 0
        decreases pending
      {
        var u :| u in pending;
        if u != MetadataKey {
          metadata := metadata[u := 0];
        }
        pending := pending - {u};
        done := done + {u};
      }
    }

    /**
     * `INVALIDATE_URL`: deletes the URL from the cache and, only when the
     * delete found an entry, its timestamp; every other entry stays.
     */
    method InvalidateUrl(url: string) returns (deleted: bool)
      modifies this
      ensures deleted <==> url in old(cachedUrls)
      ensures cachedUrls == old(cachedUrls) - {url}
      ensures metadata == if deleted then old(metadata) - {url} else old(metadata)
    {
      deleted := url in cachedUrls;
      cachedUrls := cachedUrls - {url};
      if deleted {
        metadata := metadata - {url};
      }
    }

    /** `CLEAR_CACHE`: deletes the whole cache, the metadata entry with it. */
    method ClearCache()
      modifies this
      ensures cachedUrls == {} && metadata == map[]
    {
      cachedUrls := {};
      metadata := map[];
    }

    /**
     * The fetch listener at time `now` with what the network does: picks the
     * route, runs its strategy against the cache and the metadata, stores a
     * valid network response and stamps it.
     */
    method HandleFetch(request: Request, network: Network, now: int) returns (route: Route, reply: Option<Reply>)
      modifies this
      ensures route == RouteOf(request)
      ensures route == Untouched ==> reply.None? && cachedUrls == old(cachedUrls) && metadata == old(metadata)
      ensures route != Untouched ==>
        var o := StrategyOutcome(route, Href(request.url) in old(cachedUrls), IsFileStale(old(metadata), Href(request.url), now), network);
        && reply == Some(o.reply)
        && cachedUrls == (if o.stored then old(cachedUrls) + {Href(request.url)} else old(cachedUrls))
        && metadata == (if o.stamped then old(metadata)[Href(request.url) := now] else old(metadata))
    {
      route := RouteOf(request);
      if route == Untouched {
        reply := None;
        return;
      }
      var url := Href(request.url);
      var o := StrategyOutcome(route, url in cachedUrls, Stale(url, now), network);
      reply := Some(o.reply);
      if o.stored {
        cachedUrls := cachedUrls + {url};
        UpdateCacheTimestamp(url, now);
      }
    }
  }

  /**
   * A game file fetched and stored at a non-zero time is answered from the
   * cache, without the network, by every request for it in the next seven days.
   */
  lemma GameFileServedFromCacheFor7Days(request: Request, cachedUrls: set<string>, metadata: map<string, int>,
                                        storedAt: int, now: int, network: Network)
    requires RouteOf(request) == TimeAwareCacheFirst
    requires Href(request.url) in cachedUrls && storedAt != 0 && now - storedAt <= MaxAgeMs
    ensures TimeAwareCacheFirstOutcome(Href(request.url) in cachedUrls,
                                       IsFileStale(metadata[Href(request.url) := storedAt], Href(request.url), now),
                                       network)
         == Outcome(FromCache, false, false, false)
  {
    StampedFreshFor7Days(metadata, Href(request.url), storedAt, now);
  }
}
