/**
 * The client state of src/lib/state.ts: the per-page `SessionState`
 * object, the persisted `State` object behind its saving `Proxy`, and the
 * operations that run a server round and initialise the page's tooling.
 *
 * `localStorage["ccported_state"]` is the `storage` field of the state
 * object: `None` when the item is absent or empty, otherwise the decoded
 * JSON object as a record of optional fields.
 */
module ClientState {
  import opened Wrappers
  import opened ServerList
  import opened ServerOrder
  import opened ServerTest

  /** `homeView`: "grid" or "list". */
  datatype HomeView = Grid | List

  /** A game record of src/lib/types/game.ts. */
  datatype Game = Game(gameID: string, thumbPath: string, fName: string, description: string,
                       tags: seq<string>, clicks: int, uploadedTimestamp: int, updatedTimestamp: int)

  /** The fields of `State` that `saveState` writes: all but `servers`, `aHosts` and `isAHost`. */
  datatype Persisted = Persisted(version: string, currentServer: Server, homeView: HomeView,
                                 pinnedGames: seq<string>, games: seq<Game>, localPlays: int)

  /** A stored object: each persisted key may be present or absent. */
  datatype Saved = Saved(version: Option<string>, currentServer: Option<Server>, homeView: Option<HomeView>,
                         pinnedGames: Option<seq<string>>, games: Option<seq<Game>>, localPlays: Option<int>)

  /** The initial values `createState` is given. */
  function Defaults(): (d: Persisted)
    ensures d.version == "1.0.0" && d.currentServer == Servers[0] && d.homeView == Grid
    ensures d.pinnedGames == [] && d.games == [] && d.localPlays == 0
  {
    Persisted("1.0.0", Servers[0], Grid, [], [], 0)
  }

  /** The object `saveState` writes: every persisted field, present. */
  function Serialize(p: Persisted): Saved {
    Saved(Some(p.version), Some(p.currentServer), Some(p.homeView), Some(p.pinnedGames), Some(p.games), Some(p.localPlays))
  }

  /** `Object.assign(state, saved)`: a key present in `saved` replaces the field, an absent one keeps it. */
  function Overlay(p: Persisted, saved: Saved): Persisted {
    Persisted(saved.version.GetOr(p.version), saved.currentServer.GetOr(p.currentServer),
              saved.homeView.GetOr(p.homeView), saved.pinnedGames.GetOr(p.pinnedGames),
              saved.games.GetOr(p.games), saved.localPlays.GetOr(p.localPlays))
  }

  /** Loading what was saved restores every persisted field, whatever the state it is loaded onto. */
  lemma LoadAfterSave(p: Persisted, onto: Persisted)
    ensures Overlay(onto, Serialize(p)) == p
  {
  }

  /** Overlaying keeps exactly the fields of the base that the stored object lacks. */
  lemma OverlayFieldwise(p: Persisted, saved: Saved)
    ensures saved.version.None? ==> Overlay(p, saved).version == p.version
    ensures saved.version.Some? ==> Overlay(p, saved).version == saved.version.value
    ensures saved.currentServer.Some? ==> Overlay(p, saved).currentServer == saved.currentServer.value
    ensures saved.currentServer.None? ==> Overlay(p, saved).currentServer == p.currentServer
    ensures saved.homeView.Some? ==> Overlay(p, saved).homeView == saved.homeView.value
    ensures saved.homeView.None? ==> Overlay(p, saved).homeView == p.homeView
    ensures saved.pinnedGames.Some? ==> Overlay(p, saved).pinnedGames == saved.pinnedGames.value
    ensures saved.pinnedGames.None? ==> Overlay(p, saved).pinnedGames == p.pinnedGames
    ensures saved.games.Some? ==> Overlay(p, saved).games == saved.games.value
    ensures saved.games.None? ==> Overlay(p, saved).games == p.games
    ensures saved.localPlays.Some? ==> Overlay(p, saved).localPlays == saved.localPlays.value
    ensures saved.localPlays.None? ==> Overlay(p, saved).localPlays == p.localPlays
  {
  }

  /** Overlaying an empty object, or overlaying twice, changes nothing further. */
  lemma OverlayIdempotent(p: Persisted, saved: Saved)
    ensures Overlay(p, Saved(None, None, None, None, None, None)) == p
    ensures Overlay(Overlay(p, saved), saved) == Overlay(p, saved)
  {
  }

  /** A property assignment on `State`; the `Proxy` setter writes it and then saves. */
  datatype Assignment =
    | SetVersion(version: string)
    | SetServers(servers: seq<Server>)
    | SetAHosts(aHosts: seq<AHost>)
    | SetCurrentServer(server: Server)
    | SetHomeView(view: HomeView)
    | SetPinnedGames(pinned: seq<string>)
    | SetGames(games: seq<Game>)
    | SetLocalPlays(plays: int)

  /** The persisted fields after an assignment. */
  function Apply(p: Persisted, a: Assignment): Persisted {
    match a
    case SetVersion(v) => p.(version := v)
    case SetServers(_) => p
    case SetAHosts(_) => p
    case SetCurrentServer(s) => p.(currentServer := s)
    case SetHomeView(h) => p.(homeView := h)
    case SetPinnedGames(g) => p.(pinnedGames := g)
    case SetGames(g) => p.(games := g)
    case SetLocalPlays(n) => p.(localPlays := n)
  }

  /**
   * An assignment to one persisted field changes that field and no other;
   * assigning `servers` or `aHosts` changes no persisted field.
   */
  lemma ApplyChangesOneField(p: Persisted, a: Assignment)
    ensures a.SetServers? || a.SetAHosts? ==> Apply(p, a) == p
    ensures !a.SetVersion? ==> Apply(p, a).version == p.version
    ensures !a.SetCurrentServer? ==> Apply(p, a).currentServer == p.currentServer
    ensures !a.SetHomeView? ==> Apply(p, a).homeView == p.homeView
    ensures !a.SetPinnedGames? ==> Apply(p, a).pinnedGames == p.pinnedGames
    ensures !a.SetGames? ==> Apply(p, a).games == p.games
    ensures !a.SetLocalPlays? ==> Apply(p, a).localPlays == p.localPlays
    ensures a.SetCurrentServer? ==> Apply(p, a).currentServer == a.server
    ensures a.SetLocalPlays? ==> Apply(p, a).localPlays == a.plays
  {
  }

  /** `SessionState`: per-page flags and the response ledger of the last server round. */
  class Session {
    const ssr: bool
    var adBlockEnabled: bool
    var adsEnabled: bool
    var serverResponses: seq<Entry>

    constructor (ssr: bool)
      ensures this.ssr == ssr
      ensures !adBlockEnabled && !adsEnabled && serverResponses == []
    {
      this.ssr := ssr;
      adBlockEnabled := false;
      adsEnabled := false;
      serverResponses := [];
    }

    /** Whether the page runs in a browser (`browser` of `$app/environment`). */
    predicate Browser()
      reads this
    {
      !ssr
    }

    /** `SessionState.serverResponses = []`. */
    method ClearResponses()
      modifies this`serverResponses
      ensures serverResponses == []
    {
      serverResponses := [];
    }

    /**
     * `testServer(server)`: appends what the probe's verdict records, or
     * reports that the test raised, leaving the ledger as it was.
     */
    method TestServer(server: Server, probe: Probe) returns (threw: bool)
      modifies this`serverResponses
      ensures threw <==> ServerTest.TestServer(server, probe, Browser()).Raised?
      ensures threw ==> serverResponses == old(serverResponses)
      ensures !threw ==> serverResponses == old(serverResponses) + ServerTest.TestServer(server, probe, Browser()).entries
    {
      match ServerTest.TestServer(server, probe, !ssr)
      case Raised =>
        threw := true;
      case Recorded(entries) =>
        serverResponses := serverResponses + entries;
        threw := false;
    }

    /**
     * The loop of `findServer`: `await testServer(server)` for each server
     * in turn, stopping at the first test that raises.
     */
    method TestAll(order: seq<Server>, probe: nat -> Probe) returns (raised: bool)
      modifies this`serverResponses
      ensures raised == RunRound(order, probe, Browser()).raised
      ensures serverResponses == old(serverResponses) + RunRound(order, probe, Browser()).ledger
    {
      var browser := !ssr;
      var i := 0;
      while i < |order|
        invariant 0 <= i <= |order|
        invariant !RunRound(order[..i], probe, browser).raised
        invariant serverResponses == old(serverResponses) + RunRound(order[..i], probe, browser).ledger
      {
        var threw := TestServer(order[i], probe(i));
        RoundStep(order, i, probe, browser);
        if threw {
          RaisedStays(order, i + 1, probe, browser);
          return true;
        }
        i := i + 1;
      }
      assert order[..i] == order;
      return false;
    }
  }

  /** `State`: the persisted client state, with the store it saves to. */
  class AppState {
    const session: Session
    var version: string
    var servers: seq<Server>
    var aHosts: seq<AHost>
    var currentServer: Server
    var homeView: HomeView
    var pinnedGames: seq<string>
    var games: seq<Game>
    var localPlays: int
    var storage: Option<Saved>

    /** The fields `saveState` writes. */
    function Snapshot(): Persisted
      reads this`version, this`currentServer, this`homeView, this`pinnedGames, this`games, this`localPlays
    {
      Persisted(version, currentServer, homeView, pinnedGames, games, localPlays)
    }

    /** What `loadState` makes of `p` given the store: the overlay in a browser with a saved item, `p` otherwise. */
    function Loaded(p: Persisted): Persisted
      reads this, session
    {
      if session.ssr || storage.None? then p else Overlay(p, storage.value)
    }

    /** `createState(initial)`: the defaults, then `loadState` over them. */
    constructor (session: Session, storage: Option<Saved>)
      ensures this.session == session && this.storage == storage
      ensures servers == Servers && aHosts == AHosts
      ensures Snapshot() == Loaded(Defaults())
    {
      this.session := session;
      this.storage := storage;
      version := "1.0.0";
      servers := Servers;
      aHosts := AHosts;
      currentServer := Servers[0];
      homeView := Grid;
      pinnedGames := [];
      games := [];
      localPlays := 0;
      new;
      LoadState();
    }

    /** Sets every persisted field from `p`. */
    method SetSnapshot(p: Persisted)
      modifies this`version, this`currentServer, this`homeView, this`pinnedGames, this`games, this`localPlays
      ensures Snapshot() == p
    {
      version := p.version;
      currentServer := p.currentServer;
      homeView := p.homeView;
      pinnedGames := p.pinnedGames;
      games := p.games;
      localPlays := p.localPlays;
    }

    /**
     * `loadState` as the constructor runs it: `Object.assign` onto the raw
     * target before the proxy exists, so nothing is saved. Under SSR, or
     * without a saved item, nothing changes; otherwise the saved keys overlay
     * the fields. A `loadState` called later on the proxied state would save
     * once per key; that call is not modelled.
     */
    method LoadState()
      modifies this`version, this`currentServer, this`homeView, this`pinnedGames, this`games, this`localPlays
      ensures Snapshot() == Loaded(old(Snapshot()))
    {
      if !session.ssr && storage.Some? {
        SetSnapshot(Overlay(Snapshot(), storage.value));
      }
    }

    /** `saveState`: a no-op under SSR; otherwise stores every persisted field. */
    method Save()
      modifies this`storage
      ensures storage == if session.ssr then old(storage) else Some(Serialize(Snapshot()))
    {
      if !session.ssr {
        storage := Some(Serialize(Snapshot()));
      }
    }

    /** The `Proxy` setter: writes the assigned property, then saves. */
    method Assign(a: Assignment)
      modifies this
      ensures Snapshot() == Apply(old(Snapshot()), a)
      ensures servers == (if a.SetServers? then a.servers else old(servers))
      ensures aHosts == (if a.SetAHosts? then a.aHosts else old(aHosts))
      ensures storage == if session.ssr then old(storage) else Some(Serialize(Snapshot()))
    {
      match a {
        case SetVersion(v) => version := v;
        case SetServers(s) => servers := s;
        case SetAHosts(h) => aHosts := h;
        case SetCurrentServer(s) => currentServer := s;
        case SetHomeView(h) => homeView := h;
        case SetPinnedGames(g) => pinnedGames := g;
        case SetGames(g) => games := g;
        case SetLocalPlays(n) => localPlays := n;
      }
      Save();
    }

    /** `State.servers = servers`: the list is not persisted, but the setter still saves. */
    method AssignServers(servers: seq<Server>)
      modifies this
      ensures this.servers == servers
      ensures Snapshot() == old(Snapshot()) && aHosts == old(aHosts)
      ensures storage == if session.ssr then old(storage) else Some(Serialize(Snapshot()))
    {
      ghost var before := Snapshot();
      Assign(SetServers(servers));
      ApplyChangesOneField(before, SetServers(servers));
    }

    /** `State.currentServer = server`, saved. */
    method AssignCurrentServer(server: Server)
      modifies this
      ensures Snapshot() == old(Snapshot()).(currentServer := server)
      ensures servers == old(servers) && aHosts == old(aHosts)
      ensures storage == if session.ssr then old(storage) else Some(Serialize(Snapshot()))
    {
      Assign(SetCurrentServer(server));
    }
  }

  /** A page reloaded after any assignment in a browser loads back the state as assigned. */
  lemma ReloadAfterAssign(before: Persisted, a: Assignment, defaults: Persisted)
    ensures Overlay(defaults, Serialize(Apply(before, a))) == Apply(before, a)
  {
    LoadAfterSave(Apply(before, a), defaults);
  }

  /** One more test extends a round that has not raised by what that test records. */
  lemma RoundStep(order: seq<Server>, i: nat, probe: nat -> Probe, browser: bool)
    requires i < |order|
    requires !RunRound(order[..i], probe, browser).raised
    ensures TestServer(order[i], probe(i), browser).Raised? ==>
      RunRound(order[..i + 1], probe, browser) == Round(RunRound(order[..i], probe, browser).ledger, true)
    ensures TestServer(order[i], probe(i), browser).Recorded? ==>
      RunRound(order[..i + 1], probe, browser)
      == Round(RunRound(order[..i], probe, browser).ledger + TestServer(order[i], probe(i), browser).entries, false)
  {
    assert order[..i + 1][..i] == order[..i];
  }

  /** A round that raised stays raised, with the same ledger, however many servers follow. */
  lemma {:induction false} RaisedStays(order: seq<Server>, j: nat, probe: nat -> Probe, browser: bool)
    requires j <= |order|
    requires RunRound(order[..j], probe, browser).raised
    ensures RunRound(order, probe, browser) == RunRound(order[..j], probe, browser)
    decreases |order| - j
  {
    if j < |order| {
      var next := order[..j + 1];
      assert next[..j] == order[..j];
      assert RunRound(next, probe, browser) == RunRound(order[..j], probe, browser);
      RaisedStays(order, j + 1, probe, browser);
    } else {
      assert order[..j] == order;
    }
  }

  /**
   * `findServer`, given what `await findServers()` settled to: `None` when
   * the manifest's `fetch` or `text()` rejected, which rejects `findServer`
   * before it touches any state; otherwise the list it resolved to
   * (`ServerList.FindServers` of the manifest response), handed on to
   * `FindServerResolved`.
   */
  method FindServer(state: AppState, settled: Option<seq<Server>>, probe: nat -> Probe) returns (r: FindResult)
    modifies state, state.session
    ensures settled.None? ==> r == Rejected
    ensures settled.None? ==> state.servers == old(state.servers) && state.storage == old(state.storage)
                              && state.session.serverResponses == old(state.session.serverResponses)
    ensures settled.Some? ==>
      && r == Pick(RunRound(SortByPriority(settled.value), probe, state.session.Browser()))
      && state.servers == SortByPriority(settled.value)
      && state.session.serverResponses == RunRound(SortByPriority(settled.value), probe, state.session.Browser()).ledger
      && state.storage == if state.session.ssr then old(state.storage) else Some(Serialize(old(state.Snapshot())))
    ensures state.Snapshot() == old(state.Snapshot()) && state.aHosts == old(state.aHosts)
    ensures state.session.adBlockEnabled == old(state.session.adBlockEnabled)
    ensures state.session.adsEnabled == old(state.session.adsEnabled)
  {
    match settled
    case None =>
      r := Rejected;
    case Some(servers) =>
      r := FindServerResolved(state, servers, probe);
  }

  /**
   * `findServer` after `await findServers()` resolved to `servers`: assigns
   * `State.servers` (which saves), clears the ledger, sorts `State.servers`
   * in place by priority (no save: the sort bypasses the setter) and tests
   * the servers one after another. The result is the first successful
   * entry's server, `null`, or the exception a test raised; for
   * `servers == FindServers(manifest)` it is `FindServerResult(manifest, ...)`.
   */
  method FindServerResolved(state: AppState, servers: seq<Server>, probe: nat -> Probe) returns (r: FindResult)
    modifies state, state.session
    ensures state.servers == SortByPriority(servers)
    ensures state.session.serverResponses == RunRound(SortByPriority(servers), probe, state.session.Browser()).ledger
    ensures r == Pick(RunRound(SortByPriority(servers), probe, state.session.Browser()))
    ensures state.Snapshot() == old(state.Snapshot()) && state.aHosts == old(state.aHosts)
    ensures state.storage == if state.session.ssr then old(state.storage) else Some(Serialize(old(state.Snapshot())))
    ensures state.session.adBlockEnabled == old(state.session.adBlockEnabled)
    ensures state.session.adsEnabled == old(state.session.adsEnabled)
  {
    state.AssignServers(servers);
    state.session.ClearResponses();
    state.servers := SortByPriority(state.servers);
    var raised := state.session.TestAll(state.servers, probe);
    if raised {
      return Rejected;
    }
    match FirstSuccess(state.session.serverResponses)
    case Some(s) => r := Found(s);
    case None => r := NoServer;
  }

  /** A predicate of `hostname` being one of `hosts`' hostnames (`Array.prototype.some`). */
  function AnyHostnameIs(hosts: seq<AHost>, hostname: string): (b: bool)
    ensures b <==> exists i :: 0 <= i < |hosts| && hosts[i].hostname == hostname
    decreases |hosts|
  {
    if |hosts| == 0 then false
    else if hosts[0].hostname == hostname then true
    else
      var rest := AnyHostnameIs(hosts[1..], hostname);
      assert rest ==> exists i :: 0 <= i < |hosts| && hosts[i].hostname == hostname by {
        if rest {
          var i :| 0 <= i < |hosts[1..]| && hosts[1..][i].hostname == hostname;
          assert hosts[i + 1] == hosts[1..][i];
        }
      }
      assert (exists i :: 0 <= i < |hosts| && hosts[i].hostname == hostname) ==> rest by {
        if exists i :: 0 <= i < |hosts| && hosts[i].hostname == hostname {
          var i :| 0 <= i < |hosts| && hosts[i].hostname == hostname;
          assert i > 0 && hosts[1..][i - 1] == hosts[i];
        }
      }
      rest
  }

  /** `isAHost`: in a browser, the page's hostname is one of the compiled-in ad hosts (not `State.aHosts`). */
  function IsAHost(browser: bool, pageHostname: string): bool {
    browser && AnyHostnameIs(AHosts, pageHostname)
  }

  /** The ad hosts are exactly ccported.github.io and ccported.click, and only in a browser. */
  lemma IsAHostIff(browser: bool, pageHostname: string)
    ensures IsAHost(browser, pageHostname) <==> browser && (pageHostname == "ccported.github.io" || pageHostname == "ccported.click")
  {
    assert AHosts[0].hostname == "ccported.github.io" && AHosts[1].hostname == "ccported.click";
  }

  /**
   * `initializeTooling` up to the AWS clients: runs `findServer`, assigns
   * `currentServer` only when a server was found, then records the ad-block
   * flag and enables ads only without an ad blocker on an ad host. An
   * exception from `findServer` ends it before the flags are set.
   */
  method InitializeTooling(state: AppState, settled: Option<seq<Server>>, probe: nat -> Probe,
                           adBlock: bool, pageHostname: string) returns (r: FindResult)
    modifies state, state.session
    ensures settled.None? ==> r == Rejected
    ensures settled.None? ==> state.servers == old(state.servers) && state.storage == old(state.storage)
                              && state.session.serverResponses == old(state.session.serverResponses)
    ensures settled.Some? ==>
      && r == Pick(RunRound(SortByPriority(settled.value), probe, state.session.Browser()))
      && state.servers == SortByPriority(settled.value)
      && state.session.serverResponses == RunRound(SortByPriority(settled.value), probe, state.session.Browser()).ledger
      && state.storage == if state.session.ssr then old(state.storage) else Some(Serialize(state.Snapshot()))
    ensures state.Snapshot() == old(state.Snapshot()).(currentServer := if r.Found? then r.server else old(state.currentServer))
    ensures state.aHosts == old(state.aHosts)
    ensures state.session.ssr && settled.Some? ==> r == NoServer && state.currentServer == old(state.currentServer)
    ensures state.session.ssr && !r.Rejected? ==> !state.session.adsEnabled
    ensures r.Rejected? ==> (state.session.adBlockEnabled == old(state.session.adBlockEnabled)
                             && state.session.adsEnabled == old(state.session.adsEnabled))
    ensures !r.Rejected? ==> (state.session.adBlockEnabled == adBlock
                              && state.session.adsEnabled == (!adBlock && IsAHost(state.session.Browser(), pageHostname)))
  {
    r := FindServer(state, settled, probe);
    if state.session.ssr && settled.Some? {
      ServerSideRound(SortByPriority(settled.value), probe);
    }
    if r.Rejected? {
      return;
    }
    if r.Found? {
      state.AssignCurrentServer(r.server);
    }
    state.session.adBlockEnabled := adBlock;
    state.session.adsEnabled := !adBlock && IsAHost(!state.session.ssr, pageHostname);
  }
}
