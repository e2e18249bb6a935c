/**
 * The order in which `findServer` tests servers (src/lib/state.ts:101):
 * `servers.sort((a, b) => a.priority - b.priority)`. JavaScript's sort is
 * stable, so servers of equal priority keep their list order. The model
 * is a stable insertion sort on the sequence.
 */
module ServerOrder {
  import opened ServerList

  /** Non-decreasing priorities. */
  ghost predicate SortedByPriority(s: seq<Server>) {
    forall i, j :: 0 <= i < j < |s| ==> s[i].priority <= s[j].priority
  }

  /** The servers of priority `p`, in list order. */
  function WithPriority(s: seq<Server>, p: int): seq<Server>
    decreases |s|
  {
    if |s| == 0 then []
    else (if s[0].priority == p then [s[0]] else []) + WithPriority(s[1..], p)
  }

  /** Places `x` before the first server whose priority is not smaller than its own. */
  function InsertByPriority(x: Server, s: seq<Server>): seq<Server>
    decreases |s|
  {
    if |s| == 0 || x.priority <= s[0].priority then [x] + s
    else [s[0]] + InsertByPriority(x, s[1..])
  }

  /** The result of the comparator sort. */
  function SortByPriority(s: seq<Server>): seq<Server>
    decreases |s|
  {
    if |s| == 0 then [] else InsertByPriority(s[0], SortByPriority(s[1..]))
  }

  lemma {:induction false} InsertSorted(x: Server, s: seq<Server>)
    requires SortedByPriority(s)
    ensures SortedByPriority(InsertByPriority(x, s))
    ensures |InsertByPriority(x, s)| == |s| + 1
    ensures InsertByPriority(x, s)[0] == x || (|s| > 0 && InsertByPriority(x, s)[0] == s[0])
    decreases |s|
  {
    if |s| > 0 && x.priority > s[0].priority {
      InsertSorted(x, s[1..]);
    }
  }

  lemma {:induction false} InsertPermutes(x: Server, s: seq<Server>)
    ensures multiset(InsertByPriority(x, s)) == multiset(s) + multiset{x}
    decreases |s|
  {
    if |s| > 0 && x.priority > s[0].priority {
      InsertPermutes(x, s[1..]);
      assert s == [s[0]] + s[1..];
    }
  }

  lemma {:induction false} WithPriorityConcat(a: seq<Server>, b: seq<Server>, p: int)
    ensures WithPriority(a + b, p) == WithPriority(a, p) + WithPriority(b, p)
    decreases |a|
  {
    if |a| == 0 {
      assert a + b == b;
    } else {
      WithPriorityConcat(a[1..], b, p);
      assert (a + b)[1..] == a[1..] + b;
    }
  }

  /** Inserting `x` puts it ahead of every server of its own priority. */
  lemma {:induction false} InsertStable(x: Server, s: seq<Server>, p: int)
    ensures WithPriority(InsertByPriority(x, s), p)
         == (if x.priority == p then [x] else []) + WithPriority(s, p)
    decreases |s|
  {
    if |s| == 0 || x.priority <= s[0].priority {
      WithPriorityConcat([x], s, p);
    } else {
      InsertStable(x, s[1..], p);
      WithPriorityConcat([s[0]], InsertByPriority(x, s[1..]), p);
    }
  }

  /** The sorted list has non-decreasing priorities. */
  lemma {:induction false} SortSorted(s: seq<Server>)
    ensures SortedByPriority(SortByPriority(s))
    ensures |SortByPriority(s)| == |s|
    decreases |s|
  {
    if |s| > 0 {
      SortSorted(s[1..]);
      InsertSorted(s[0], SortByPriority(s[1..]));
    }
  }

  /** The sorted list is a permutation of the list. */
  lemma {:induction false} SortPermutes(s: seq<Server>)
    ensures multiset(SortByPriority(s)) == multiset(s)
    decreases |s|
  {
    if |s| > 0 {
      SortPermutes(s[1..]);
      InsertPermutes(s[0], SortByPriority(s[1..]));
      assert s == [s[0]] + s[1..];
    }
  }

  /** Stability: for every priority, its servers appear in the same order as before. */
  lemma {:induction false} SortStable(s: seq<Server>, p: int)
    ensures WithPriority(SortByPriority(s), p) == WithPriority(s, p)
    decreases |s|
  {
    if |s| > 0 {
      SortStable(s[1..], p);
      InsertStable(s[0], SortByPriority(s[1..]), p);
    }
  }

  /** A list already in priority order is left as it is. */
  lemma {:induction false} SortKeepsSorted(s: seq<Server>)
    requires SortedByPriority(s)
    ensures SortByPriority(s) == s
    decreases |s|
  {
    if |s| > 0 {
      SortKeepsSorted(s[1..]);
      assert SortByPriority(s) == InsertByPriority(s[0], s[1..]);
    }
  }

  /**
   * Parsed manifests are already in priority order, so sorting them changes
   * nothing; only the compiled-in fallback list is actually reordered.
   */
  lemma ParsedManifestNeedsNoSort(response: ManifestResponse)
    requires response.ok
    ensures SortByPriority(FindServers(response)) == FindServers(response)
  {
    FindServersSpec(response);
    SortKeepsSorted(FindServers(response));
  }

  /** The fallback list in test order: Charlie, Ellay, the three priority-2 servers in list order, Bell. */
  lemma FallbackTestOrder()
    ensures SortByPriority(Servers) == [Servers[0], Servers[5], Servers[2], Servers[3], Servers[4], Servers[1]]
  {
  }
}
