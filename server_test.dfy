/**
 * The server test of src/lib/state.ts as a function of what one probe
 * observes, and the round of `findServer`: every server tested one after
 * another in priority order, each test appending to the response ledger,
 * and the first successful entry picked.
 *
 * A probe is one atomic outcome: the status and body of
 * `https://<host>/blocked_res.txt`, the elapsed time of that fetch, the
 * `message` events the page receives while the hidden iframe is up (with
 * their arrival time after the listener was added), and whether the iframe
 * still has a content window when the first message is handled.
 */
module ServerTest {
  import opened Wrappers
  import opened Strings
  import opened ServerList
  import opened ServerOrder

  /** The token that both the body of blocked_res.txt and the embed's reply must carry. */
  const NotBlocked: string := "===NOT_BLOCKED==="

  /** The second marker the body of blocked_res.txt must contain. */
  const SecondMarker: string := "SOmehtin23\""

  /** The embed challenge's timer. */
  const EmbedTimeoutMs: nat := 3000

  /** A `message` event: sender origin, payload, and arrival time (ms after the listener was added). */
  datatype Message = Message(origin: string, data: string, at: nat)

  /** What testing one server observes in a browser. */
  datatype Probe =
    | Threw  // the fetch, or reading its body, rejected
    | Answered(ok: bool, status: nat, body: string, elapsed: int, messages: seq<Message>, hasWindow: bool)

  /** One entry of `SessionState.serverResponses`. */
  datatype Entry = Entry(server: Server, success: bool, time: int, level: nat, reason: string)

  /** A test either appends entries or raises out of `testServer`. */
  datatype TestRun = Recorded(entries: seq<Entry>) | Raised

  /** The only origin whose messages the test listens to: probes always use https. */
  function Origin(server: Server): string {
    "https://" + server.hostname
  }

  /** The first message from `origin` that arrives before the timer fires: the one the race resolves with. */
  function FirstFromOrigin(messages: seq<Message>, origin: string): (m: Option<Message>)
    ensures m.Some? ==> m.value in messages && m.value.origin == origin && m.value.at < EmbedTimeoutMs
    ensures m.None? ==> forall i :: 0 <= i < |messages| && messages[i].origin == origin ==> messages[i].at >= EmbedTimeoutMs
    decreases |messages|
  {
    if |messages| == 0 then None
    else if messages[0].origin == origin && messages[0].at < EmbedTimeoutMs then Some(messages[0])
    else FirstFromOrigin(messages[1..], origin)
  }

  /** The entries one answered probe records (src/lib/state.ts:128-174). */
  function Verdict(server: Server, ok: bool, status: nat, body: string, elapsed: int,
                   messages: seq<Message>, hasWindow: bool): seq<Entry>
  {
    if !(ok && status == 200) then
      [Entry(server, false, elapsed, 1, "Bad status: " + NatToString(status))]
    else if !(Contains(body, NotBlocked) && Contains(body, SecondMarker)) then
      [Entry(server, false, elapsed, 1, "Content mismatch: " + body)]
    else
      match FirstFromOrigin(messages, Origin(server))
      case None => [Entry(server, false, elapsed, 1, "Timeout waiting for Iframe")]
      case Some(m) =>
        [if m.data == NotBlocked then Entry(server, true, elapsed, 1, "Embed/Response success")
         else Entry(server, false, elapsed, 1, "Incorrect embed challenge response")]
        + (if hasWindow then [] else [Entry(server, false, elapsed, 1, "Embed window not found")])
  }

  /** `testServer`: outside the browser it returns before probing and records nothing. */
  function TestServer(server: Server, probe: Probe, browser: bool): (r: TestRun)
    ensures !browser ==> r == Recorded([])
    ensures r.Recorded? ==> 1 <= |r.entries| || !browser
    ensures r.Recorded? ==> forall i :: 0 <= i < |r.entries| ==> r.entries[i].server == server && r.entries[i].level == (if browser then 1 else 0)
    ensures r.Raised? <==> browser && probe.Threw?
  {
    if !browser then Recorded([])
    else match probe
      case Threw => Raised
      case Answered(ok, status, body, elapsed, messages, hasWindow) =>
        Recorded(Verdict(server, ok, status, body, elapsed, messages, hasWindow))
  }

  /** A test's entries hold a success. */
  predicate HasSuccess(entries: seq<Entry>) {
    exists i :: 0 <= i < |entries| && entries[i].success
  }

  /**
   * A test records a success exactly when the fetch answered 200 with both
   * markers and the first message from the server's own origin, before the
   * timer, carried exactly the not-blocked token. At most the first entry
   * is a success.
   */
  lemma TestSucceedsIff(server: Server, probe: Probe, browser: bool)
    ensures var r := TestServer(server, probe, browser);
      r.Recorded? && HasSuccess(r.entries)
      <==> browser && probe.Answered? && probe.ok && probe.status == 200
           && Contains(probe.body, NotBlocked) && Contains(probe.body, SecondMarker)
           && FirstFromOrigin(probe.messages, Origin(server)).Some?
           && FirstFromOrigin(probe.messages, Origin(server)).value.data == NotBlocked
    ensures var r := TestServer(server, probe, browser);
      r.Recorded? ==> forall i :: 0 < i < |r.entries| ==> !r.entries[i].success
  {
    if browser && probe.Answered? {
      var entries := Verdict(server, probe.ok, probe.status, probe.body, probe.elapsed, probe.messages, probe.hasWindow);
      if probe.ok && probe.status == 200 && Contains(probe.body, NotBlocked) && Contains(probe.body, SecondMarker) {
        var first := FirstFromOrigin(probe.messages, Origin(server));
        if first.Some? {
          assert entries[0].success <==> first.value.data == NotBlocked;
          assert forall i :: 0 < i < |entries| ==> !entries[i].success;
        }
      }
    }
  }

  /** A response that is not ok, or not 200, records one failure naming the status. */
  lemma BadStatusRecorded(server: Server, ok: bool, status: nat, body: string, elapsed: int,
                          messages: seq<Message>, hasWindow: bool)
    requires !ok || status != 200
    ensures TestServer(server, Answered(ok, status, body, elapsed, messages, hasWindow), true)
         == Recorded([Entry(server, false, elapsed, 1, "Bad status: " + NatToString(status))])
  {
  }

  /** A 200 body lacking either marker records one failure starting "Content mismatch: ". */
  lemma ContentMismatchRecorded(server: Server, body: string, elapsed: int,
                                messages: seq<Message>, hasWindow: bool)
    requires !Contains(body, NotBlocked) || !Contains(body, SecondMarker)
    ensures var r := TestServer(server, Answered(true, 200, body, elapsed, messages, hasWindow), true);
      && r.Recorded? && |r.entries| == 1 && !r.entries[0].success
      && StartsWith(r.entries[0].reason, "Content mismatch: ")
  {
    var reason := "Content mismatch: " + body;
    assert reason[..|"Content mismatch: "|] == "Content mismatch: ";
  }

  /**
   * When the first own-origin message before the timer carries anything but
   * the not-blocked token, one failure "Incorrect embed challenge response"
   * is recorded, followed by "Embed window not found" when the iframe has no
   * content window.
   */
  lemma IncorrectResponseRecorded(server: Server, body: string, elapsed: int,
                                  messages: seq<Message>, hasWindow: bool)
    requires Contains(body, NotBlocked) && Contains(body, SecondMarker)
    requires FirstFromOrigin(messages, Origin(server)).Some?
    requires FirstFromOrigin(messages, Origin(server)).value.data != NotBlocked
    ensures TestServer(server, Answered(true, 200, body, elapsed, messages, hasWindow), true)
         == Recorded([Entry(server, false, elapsed, 1, "Incorrect embed challenge response")]
                     + (if hasWindow then [] else [Entry(server, false, elapsed, 1, "Embed window not found")]))
  {
  }

  /**
   * A decided race in an iframe without a content window records, after the
   * race's own entry, one failure "Embed window not found"; with the window
   * the race's entry is the only one.
   */
  lemma WindowMissingRecorded(server: Server, body: string, elapsed: int, messages: seq<Message>, hasWindow: bool)
    requires Contains(body, NotBlocked) && Contains(body, SecondMarker)
    requires FirstFromOrigin(messages, Origin(server)).Some?
    ensures var r := TestServer(server, Answered(true, 200, body, elapsed, messages, hasWindow), true);
      && r.Recorded? && |r.entries| == (if hasWindow then 1 else 2)
      && (!hasWindow ==> r.entries[1] == Entry(server, false, elapsed, 1, "Embed window not found"))
  {
  }

  /** With no own-origin message before the timer, the test times out with one failure. */
  lemma TimeoutRecorded(server: Server, body: string, elapsed: int,
                        messages: seq<Message>, hasWindow: bool)
    requires Contains(body, NotBlocked) && Contains(body, SecondMarker)
    requires forall i :: 0 <= i < |messages| && messages[i].origin == Origin(server) ==> messages[i].at >= EmbedTimeoutMs
    ensures TestServer(server, Answered(true, 200, body, elapsed, messages, hasWindow), true)
         == Recorded([Entry(server, false, elapsed, 1, "Timeout waiting for Iframe")])
  {
  }

  /** The messages that can decide the race: own origin, before the timer. */
  function Deciding(messages: seq<Message>, origin: string): seq<Message>
    decreases |messages|
  {
    if |messages| == 0 then []
    else (if messages[0].origin == origin && messages[0].at < EmbedTimeoutMs then [messages[0]] else [])
         + Deciding(messages[1..], origin)
  }

  lemma {:induction false} FirstFromOriginIsFirstDeciding(messages: seq<Message>, origin: string)
    ensures FirstFromOrigin(messages, origin) == if |Deciding(messages, origin)| == 0 then None else Some(Deciding(messages, origin)[0])
    decreases |messages|
  {
    if |messages| > 0 {
      FirstFromOriginIsFirstDeciding(messages[1..], origin);
    }
  }

  /**
   * Messages from other origins, and messages after the timer, are ignored:
   * two probes whose deciding messages agree record the same entries.
   */
  lemma ForeignMessagesIgnored(server: Server, ok: bool, status: nat, body: string, elapsed: int,
                               messages1: seq<Message>, messages2: seq<Message>, hasWindow: bool, browser: bool)
    requires Deciding(messages1, Origin(server)) == Deciding(messages2, Origin(server))
    ensures TestServer(server, Answered(ok, status, body, elapsed, messages1, hasWindow), browser)
         == TestServer(server, Answered(ok, status, body, elapsed, messages2, hasWindow), browser)
  {
    FirstFromOriginIsFirstDeciding(messages1, Origin(server));
    FirstFromOriginIsFirstDeciding(messages2, Origin(server));
  }

  /** The first deciding message settles the test: whatever arrives after it changes nothing. */
  lemma FirstMessageDecides(server: Server, ok: bool, status: nat, body: string, elapsed: int,
                            messages: seq<Message>, later: seq<Message>, hasWindow: bool, browser: bool)
    requires FirstFromOrigin(messages, Origin(server)).Some?
    ensures TestServer(server, Answered(ok, status, body, elapsed, messages + later, hasWindow), browser)
         == TestServer(server, Answered(ok, status, body, elapsed, messages, hasWindow), browser)
  {
    FirstFromOriginPrefix(messages, later, Origin(server));
  }

  lemma {:induction false} FirstFromOriginPrefix(messages: seq<Message>, later: seq<Message>, origin: string)
    requires FirstFromOrigin(messages, origin).Some?
    ensures FirstFromOrigin(messages + later, origin) == FirstFromOrigin(messages, origin)
    decreases |messages|
  {
    assert (messages + later)[0] == messages[0];
    if !(messages[0].origin == origin && messages[0].at < EmbedTimeoutMs) {
      FirstFromOriginPrefix(messages[1..], later, origin);
      assert (messages + later)[1..] == messages[1..] + later;
    }
  }

  /** What a round left: the ledger, and whether a test raised and ended it. */
  datatype Round = Round(ledger: seq<Entry>, raised: bool)

  /** The loop of `findServer` over the servers in test order; `probe(k)` is what the k-th test observes. */
  function RunRound(order: seq<Server>, probe: nat -> Probe, browser: bool): Round
    decreases |order|
  {
    if |order| == 0 then Round([], false)
    else
      var before := RunRound(order[..|order| - 1], probe, browser);
      if before.raised then before
      else match TestServer(order[|order| - 1], probe(|order| - 1), browser)
        case Raised => Round(before.ledger, true)
        case Recorded(entries) => Round(before.ledger + entries, false)
  }

  /** `serverResponses.find(r => r.success)?.server`. */
  function FirstSuccess(ledger: seq<Entry>): (s: Option<Server>)
    ensures s.Some? <==> HasSuccess(ledger)
    ensures s.Some? ==> exists i :: 0 <= i < |ledger| && ledger[i].success && ledger[i].server == s.value
                                   && forall j :: 0 <= j < i ==> !ledger[j].success
    decreases |ledger|
  {
    if |ledger| == 0 then None
    else if ledger[0].success then Some(ledger[0].server)
    else
      var rest := FirstSuccess(ledger[1..]);
      assert HasSuccess(ledger) ==> HasSuccess(ledger[1..]) by {
        if HasSuccess(ledger) {
          var i :| 0 <= i < |ledger| && ledger[i].success;
          assert ledger[1..][i - 1] == ledger[i];
        }
      }
      assert rest.Some? ==> HasSuccess(ledger) by {
        if rest.Some? {
          var i :| 0 <= i < |ledger[1..]| && ledger[1..][i].success;
          assert ledger[i + 1] == ledger[1..][i];
        }
      }
      assert rest.Some? ==> exists i :: 0 <= i < |ledger| && ledger[i].success && ledger[i].server == rest.value
                                   && forall j :: 0 <= j < i ==> !ledger[j].success by {
        if rest.Some? {
          var i :| 0 <= i < |ledger[1..]| && ledger[1..][i].success && ledger[1..][i].server == rest.value
                   && forall j :: 0 <= j < i ==> !ledger[1..][j].success;
          assert forall j :: 0 < j < i + 1 ==> ledger[j] == ledger[1..][j - 1];
        }
      }
      rest
  }

  /** What `findServer` resolves to: a server, `null`, or the exception a test raised. */
  datatype FindResult = Found(server: Server) | NoServer | Rejected

  /** The test order of a round: the manifest's servers sorted by priority. */
  function TestOrder(manifest: ManifestResponse): seq<Server> {
    SortByPriority(FindServers(manifest))
  }

  /**
   * What a round makes `findServer` resolve to: it rejects when a test
   * raised, and otherwise returns the first successful entry's server or
   * `null`.
   */
  function Pick(round: Round): (r: FindResult)
    ensures r.Rejected? <==> round.raised
    ensures r.Found? ==> FirstSuccess(round.ledger) == Some(r.server)
    ensures r.NoServer? <==> !round.raised && !HasSuccess(round.ledger)
  {
    if round.raised then Rejected
    else match FirstSuccess(round.ledger)
      case Some(s) => Found(s)
      case None => NoServer
  }

  /** `findServer` as a function of the manifest, the probes and whether it runs in a browser. */
  function FindServerResult(manifest: ManifestResponse, probe: nat -> Probe, browser: bool): FindResult {
    Pick(RunRound(TestOrder(manifest), probe, browser))
  }

  /**
   * `findServer` when the manifest fetch may itself reject: `None` stands for
   * `fetch` or `response.text()` throwing inside `findServers`, which
   * rejects `findServer` before anything is tested.
   */
  function FindServerSettled(fetch: Option<ManifestResponse>, probe: nat -> Probe, browser: bool): FindResult {
    match fetch
    case None => Rejected
    case Some(manifest) => FindServerResult(manifest, probe, browser)
  }

  /** Entry `e` was recorded by the test of `order[k]`. */
  predicate FromTest(order: seq<Server>, probe: nat -> Probe, browser: bool, e: Entry, k: nat) {
    && k < |order| && e.server == order[k]
    && TestServer(order[k], probe(k), browser).Recorded?
    && e in TestServer(order[k], probe(k), browser).entries
  }

  /** Entry `e` was recorded by the test of some server of `order`. */
  ghost predicate Traced(order: seq<Server>, probe: nat -> Probe, browser: bool, e: Entry) {
    exists k: nat :: FromTest(order, probe, browser, e, k)
  }

  /** The ledger's entries in test order are about servers of non-decreasing priority. */
  ghost predicate LedgerByPriority(ledger: seq<Entry>) {
    forall i, j :: 0 <= i < j < |ledger| ==> ledger[i].server.priority <= ledger[j].server.priority
  }

  /** An entry traced to a prefix of the test order is traced to the whole order. */
  lemma TracedExtends(order: seq<Server>, n: nat, probe: nat -> Probe, browser: bool, e: Entry)
    requires n <= |order|
    requires Traced(order[..n], probe, browser, e)
    ensures Traced(order, probe, browser, e)
  {
    var k: nat :| FromTest(order[..n], probe, browser, e, k);
    assert order[k] == order[..n][k];
    assert FromTest(order, probe, browser, e, k);
  }

  /** Every ledger entry comes from the test of some server of the round. */
  lemma {:induction false} RoundLedgerTraced(order: seq<Server>, probe: nat -> Probe, browser: bool)
    ensures forall i :: 0 <= i < |RunRound(order, probe, browser).ledger| ==>
      Traced(order, probe, browser, RunRound(order, probe, browser).ledger[i])
    decreases |order|
  {
    if |order| > 0 {
      var n := |order| - 1;
      var prefix := order[..n];
      RoundLedgerTraced(prefix, probe, browser);
      var before := RunRound(prefix, probe, browser);
      var ledger := RunRound(order, probe, browser).ledger;
      var test := TestServer(order[n], probe(n), browser);
      forall i | 0 <= i < |ledger|
        ensures Traced(order, probe, browser, ledger[i])
      {
        if i < |before.ledger| {
          assert ledger[i] == before.ledger[i];
          TracedExtends(order, n, probe, browser, before.ledger[i]);
        } else {
          assert !before.raised && test.Recorded? && ledger == before.ledger + test.entries;
          assert ledger[i] == test.entries[i - |before.ledger|];
          assert FromTest(order, probe, browser, ledger[i], n);
        }
      }
    }
  }

  /** When the servers are tested in priority order the ledger is in priority order. */
  lemma {:induction false} RoundLedgerSorted(order: seq<Server>, probe: nat -> Probe, browser: bool)
    requires SortedByPriority(order)
    ensures LedgerByPriority(RunRound(order, probe, browser).ledger)
    decreases |order|
  {
    if |order| > 0 {
      var n := |order| - 1;
      var prefix := order[..n];
      assert SortedByPriority(prefix);
      RoundLedgerSorted(prefix, probe, browser);
      RoundLedgerTraced(prefix, probe, browser);
      var before := RunRound(prefix, probe, browser);
      var ledger := RunRound(order, probe, browser).ledger;
      var test := TestServer(order[n], probe(n), browser);
      if !before.raised && test.Recorded? {
        assert ledger == before.ledger + test.entries;
        forall i, j | 0 <= i < j < |ledger|
          ensures ledger[i].server.priority <= ledger[j].server.priority
        {
          if j >= |before.ledger| {
            assert ledger[j] == test.entries[j - |before.ledger|];
            if i < |before.ledger| {
              assert ledger[i] == before.ledger[i];
              var k: nat :| FromTest(prefix, probe, browser, before.ledger[i], k);
              assert prefix[k] == order[k];
            } else {
              assert ledger[i] == test.entries[i - |before.ledger|];
            }
          } else {
            assert ledger[i] == before.ledger[i] && ledger[j] == before.ledger[j];
          }
        }
      } else {
        assert ledger == before.ledger;
      }
    }
  }

  /**
   * In a priority-ordered ledger the first success has the smallest
   * priority among all successful entries.
   */
  lemma FirstSuccessIsBest(ledger: seq<Entry>)
    requires LedgerByPriority(ledger)
    ensures FirstSuccess(ledger).Some? ==>
      forall i :: 0 <= i < |ledger| && ledger[i].success ==> FirstSuccess(ledger).value.priority <= ledger[i].server.priority
  {
    if FirstSuccess(ledger).Some? {
      var i0 :| 0 <= i0 < |ledger| && ledger[i0].success && ledger[i0].server == FirstSuccess(ledger).value
                && forall j :: 0 <= j < i0 ==> !ledger[j].success;
      forall i | 0 <= i < |ledger| && ledger[i].success
        ensures FirstSuccess(ledger).value.priority <= ledger[i].server.priority
      {
        assert i >= i0;
        if i > i0 {
          assert ledger[i0].server.priority <= ledger[i].server.priority;
        }
      }
    }
  }

  /** The round `findServer` runs. */
  function RoundOf(manifest: ManifestResponse, probe: nat -> Probe, browser: bool): Round {
    RunRound(TestOrder(manifest), probe, browser)
  }

  /**
   * The first success of a round over a priority-ordered list is about a
   * server of the list whose own test succeeded, and no success of the round
   * is about a server of smaller priority.
   */
  lemma RoundPicksBest(order: seq<Server>, probe: nat -> Probe, browser: bool, s: Server)
    requires SortedByPriority(order)
    requires FirstSuccess(RunRound(order, probe, browser).ledger) == Some(s)
    ensures exists k :: 0 <= k < |order| && order[k] == s
                       && (TestServer(order[k], probe(k), browser).Recorded?
                       && HasSuccess(TestServer(order[k], probe(k), browser).entries))
    ensures forall i :: 0 <= i < |RunRound(order, probe, browser).ledger| && RunRound(order, probe, browser).ledger[i].success ==>
      s.priority <= RunRound(order, probe, browser).ledger[i].server.priority
  {
    var ledger := RunRound(order, probe, browser).ledger;
    RoundLedgerSorted(order, probe, browser);
    FirstSuccessIsBest(ledger);
    var i :| 0 <= i < |ledger| && ledger[i].success && ledger[i].server == s
             && forall j :: 0 <= j < i ==> !ledger[j].success;
    SuccessIsFromSucceedingTest(order, probe, browser, i);
  }

  /** A successful ledger entry comes from a server of the round whose own test succeeded. */
  lemma SuccessIsFromSucceedingTest(order: seq<Server>, probe: nat -> Probe, browser: bool, i: nat)
    requires i < |RunRound(order, probe, browser).ledger| && RunRound(order, probe, browser).ledger[i].success
    ensures exists k :: 0 <= k < |order| && order[k] == RunRound(order, probe, browser).ledger[i].server
                       && (TestServer(order[k], probe(k), browser).Recorded?
                       && HasSuccess(TestServer(order[k], probe(k), browser).entries))
  {
    var ledger := RunRound(order, probe, browser).ledger;
    RoundLedgerTraced(order, probe, browser);
    var k: nat :| FromTest(order, probe, browser, ledger[i], k);
    var entries := TestServer(order[k], probe(k), browser).entries;
    var e :| 0 <= e < |entries| && entries[e] == ledger[i];
    assert HasSuccess(entries);
  }

  /**
   * A server `findServer` returns was tested in the round and its own test
   * succeeded, and no server that succeeded in the round has a smaller
   * priority.
   */
  lemma FindServerPicksBest(manifest: ManifestResponse, probe: nat -> Probe, browser: bool)
    requires FindServerResult(manifest, probe, browser).Found?
    ensures exists k :: 0 <= k < |TestOrder(manifest)| && TestOrder(manifest)[k] == FindServerResult(manifest, probe, browser).server
                       && (TestServer(TestOrder(manifest)[k], probe(k), browser).Recorded?
                       && HasSuccess(TestServer(TestOrder(manifest)[k], probe(k), browser).entries))
    ensures forall i :: 0 <= i < |RoundOf(manifest, probe, browser).ledger| && RoundOf(manifest, probe, browser).ledger[i].success ==>
      FindServerResult(manifest, probe, browser).server.priority <= RoundOf(manifest, probe, browser).ledger[i].server.priority
  {
    SortSorted(FindServers(manifest));
    RoundPicksBest(TestOrder(manifest), probe, browser, FindServerResult(manifest, probe, browser).server);
  }

  /**
   * `findServer` returns null exactly when the manifest fetch settled and the
   * round completed without any success; it rejects exactly when the fetch
   * rejected or some test raised.
   */
  lemma FindServerNullIff(fetch: Option<ManifestResponse>, probe: nat -> Probe, browser: bool)
    ensures FindServerSettled(fetch, probe, browser) == NoServer
        <==> fetch.Some? && !RoundOf(fetch.value, probe, browser).raised && !HasSuccess(RoundOf(fetch.value, probe, browser).ledger)
    ensures FindServerSettled(fetch, probe, browser) == Rejected
        <==> fetch.None? || RoundOf(fetch.value, probe, browser).raised
  {
  }

  /** Outside the browser nothing is tested, nothing recorded, and `findServer` returns null. */
  lemma {:induction false} ServerSideFindsNothing(manifest: ManifestResponse, probe: nat -> Probe)
    ensures RunRound(TestOrder(manifest), probe, false) == Round([], false)
    ensures FindServerResult(manifest, probe, false) == NoServer
  {
    ServerSideRound(TestOrder(manifest), probe);
  }

  lemma {:induction false} ServerSideRound(order: seq<Server>, probe: nat -> Probe)
    ensures RunRound(order, probe, false) == Round([], false)
    decreases |order|
  {
    if |order| > 0 {
      ServerSideRound(order[..|order| - 1], probe);
    }
  }
}
