/**
 * How the two service workers' rules relate, and what the site worker does
 * with the hosts of the compiled-in server list.
 */
module WorkerComparison {
  import opened Strings
  import opened CachePolicy
  import ServerList
  import GameWorker
  import SiteWorker

  /** Every large game file of the site worker is a game file of the game worker, which also knows `game_` and `.spritemap`. */
  lemma LargeGameFileIsGameFile(url: Url)
    ensures SiteWorker.IsLargeGameFile(url) ==> GameWorker.IsGameFile(url)
  {
  }

  /**
   * The game worker refuses a partial response (206) that the site worker
   * accepts as valid; otherwise they agree. Since `cache.put` refuses a 206,
   * the responses both workers actually store are the same.
   */
  lemma ValidityDiffersOnlyAt206(r: Response)
    ensures GameWorker.IsValidResponse(r) ==> SiteWorker.IsValidResponse(r)
    ensures SiteWorker.IsValidResponse(r) && !GameWorker.IsValidResponse(r) <==> r.ok && r.status == 206
    ensures GameWorker.IsValidResponse(r) <==> SiteWorker.IsValidResponse(r) && PutAccepts(r)
  {
  }

  /** The host `amazonaws.com` occurs in the Bell server's hostname. */
  lemma BellHostIsBlacklisted(host: string)
    requires host == "ccportedgames.s3.us-west-2.amazonaws.com"
    ensures Contains(host, SiteWorker.Blacklist[3])
  {
    assert host[27..40] == "amazonaws.com";
    assert OccursAt(host, SiteWorker.Blacklist[3], 27);
    ContainsAt(host, SiteWorker.Blacklist[3]);
  }

  /**
   * The site worker never caches anything from the Bell server of the
   * fallback list, even after install adds its hostname to the allow-list:
   * the blacklist is checked first.
   */
  lemma BellServerNeverCached(request: Request, allowed: seq<string>, selfOrigin: string)
    requires request.url.hostname == ServerList.Servers[1].hostname
    ensures !SiteWorker.IsCacheableRequest(request, allowed, selfOrigin)
    ensures SiteWorker.RouteOf(request, allowed, selfOrigin) == SiteWorker.Untouched
  {
    BellHostIsBlacklisted(request.url.hostname);
    SiteWorker.BlacklistWins(request, allowed, selfOrigin, 3);
  }
}
