/**
 * What the two service workers (static/game_worker.js and static/sw.js)
 * share: the parsed request URL, a response's status, the outcome of a
 * network attempt, what a caching strategy replies with and which side
 * effects it has, and the seven-day staleness rule over the URL-to-timestamp
 * metadata dictionary.
 */
module CachePolicy {
  import opened Wrappers
  import opened Strings

  /** One `name=value` pair of `URLSearchParams`, already decoded. */
  datatype Param = Param(name: string, value: string)

  /**
   * `new URL(request.url)`: the origin (scheme, host and port), hostname,
   * pathname, the raw query string (empty or starting with `?`) and its
   * decoded pairs in order. The fragment is not modelled.
   */
  datatype Url = Url(origin: string, hostname: string, pathname: string, search: string, params: seq<Param>)

  /** `request.url`, the serialised URL. */
  function Href(u: Url): (h: string)
    ensures StartsWith(h, u.origin) && EndsWith(h, u.search) && |h| == |u.origin| + |u.pathname| + |u.search|
  {
    u.origin + u.pathname + u.search
  }

  /** A fetch event's request: URL, method and the `cache-control` header if any. */
  datatype Request = Request(url: Url, verb: string, cacheControl: Option<string>)

  /** The parts of a `Response` the workers look at. */
  datatype Response = Response(ok: bool, status: int)

  /**
   * Whether `cache.put` stores the response: it rejects a partial (206)
   * response with a `TypeError` and stores nothing, as the `put` algorithm
   * of the Service Workers specification requires.
   */
  predicate PutAccepts(r: Response) {
    r.status != 206
  }

  /** What a `fetch` does: it rejects, or it answers with a response. */
  datatype Network = NetworkThrew | Replied(response: Response)

  /**
   * What a strategy's promise settles to: the cached response, the network's
   * response, a rejection with the network error, or `undefined`.
   */
  datatype Reply = FromCache | FromNetwork(response: Response) | Rethrow | NoReply

  /**
   * A strategy run: its reply, whether it called `fetch`, whether it put the
   * network response in the cache, and whether it stamped the URL's
   * timestamp.
   */
  datatype Outcome = Outcome(reply: Reply, fetched: bool, stored: bool, stamped: bool)

  /** `params.has(name)`. */
  predicate HasParam(params: seq<Param>, name: string) {
    exists i :: 0 <= i < |params| && params[i].name == name
  }

  /** `params.get(name)`: the value of the first pair with that name. */
  function GetParam(params: seq<Param>, name: string): (v: Option<string>)
    ensures v.None? <==> !HasParam(params, name)
    ensures v.Some? ==> exists i :: 0 <= i < |params| && params[i] == Param(name, v.value)
                                    && forall j :: 0 <= j < i ==> params[j].name != name
    decreases |params|
  {
    if |params| == 0 then None
    else if params[0].name == name then Some(params[0].value)
    else
      var rest := GetParam(params[1..], name);
      assert rest.Some? ==> exists i :: 0 <= i < |params| && params[i] == Param(name, rest.value)
                                        && forall j :: 0 <= j < i ==> params[j].name != name by {
        if rest.Some? {
          var i :| 0 <= i < |params[1..]| && params[1..][i] == Param(name, rest.value)
                   && forall j :: 0 <= j < i ==> params[1..][j].name != name;
          assert params[i + 1] == params[1..][i];
          assert forall j :: 1 <= j < i + 1 ==> params[j] == params[1..][j - 1];
        }
      }
      assert HasParam(params, name) ==> HasParam(params[1..], name) by {
        if HasParam(params, name) {
          var i :| 0 <= i < |params| && params[i].name == name;
          assert params[1..][i - 1] == params[i];
        }
      }
      assert HasParam(params[1..], name) ==> HasParam(params, name) by {
        if HasParam(params[1..], name) {
          var i :| 0 <= i < |params[1..]| && params[1..][i].name == name;
          assert params[i + 1] == params[1..][i];
        }
      }
      rest
  }

  /** The maximum age of a cached file: seven days, in milliseconds. */
  const MaxAgeMs: int := 7 * 24 * 60 * 60 * 1000

  /**
   * `isFileStale(url)` at time `now`: a missing or falsy (zero) timestamp is
   * stale, otherwise the file is stale once it is more than seven days old.
   */
  function IsFileStale(metadata: map<string, int>, url: string, now: int): bool {
    url !in metadata || metadata[url] == 0 || now - metadata[url] > MaxAgeMs
  }

  /** The staleness rule in its own terms: fresh exactly when stamped non-zero at most 604800000 ms ago. */
  lemma FreshIff(metadata: map<string, int>, url: string, now: int)
    ensures !IsFileStale(metadata, url, now)
        <==> url in metadata && metadata[url] != 0 && metadata[url] >= now - 604800000
  {
  }

  /** A stale entry stays stale as time goes on. */
  lemma StaleStaysStale(metadata: map<string, int>, url: string, now: int, later: int)
    requires now <= later
    requires IsFileStale(metadata, url, now)
    ensures IsFileStale(metadata, url, later)
  {
  }

  /**
   * Stamping a URL at a non-zero time makes it fresh for the next seven days
   * and stale after them, and leaves the staleness of every other URL as it was.
   */
  lemma StampedFreshFor7Days(metadata: map<string, int>, url: string, stampedAt: int, now: int)
    requires stampedAt != 0
    ensures !IsFileStale(metadata[url := stampedAt], url, now) <==> now - stampedAt <= MaxAgeMs
    ensures forall other :: other != url ==>
      IsFileStale(metadata[url := stampedAt], other, now) == IsFileStale(metadata, other, now)
  {
  }

  /** A zero timestamp reads as stale at every time. */
  lemma ZeroIsStale(metadata: map<string, int>, url: string, now: int)
    requires url in metadata && metadata[url] == 0
    ensures IsFileStale(metadata, url, now)
  {
  }
}
