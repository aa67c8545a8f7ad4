/**
 * Listing recent sessions from a page of traces: traces are grouped by their
 * session id in first-seen order, each group keeps its first and last
 * timestamp, trace count and first input, and the groups are shown newest
 * `last_seen` first, up to a limit.
 */
module SessionListing {
  import opened Wrappers
  import opened JsonValues
  import opened Strings
  import opened Sorting
  import opened TraceRecords
  import opened ConversationHistory

  /** The first input is cut to this many characters. */
  const FIRST_INPUT_LENGTH: nat := 50
  /** The default number of sessions shown. */
  const DEFAULT_LIMIT: int := 10

  datatype SessionSummary = SessionSummary(id: string, firstSeen: Option<string>, lastSeen: Option<string>,
                                           traceCount: nat, firstInput: string)

  /** The `sessions` dict: its keys in insertion order and its entries. */
  datatype Sessions = Sessions(order: seq<string>, table: map<string, SessionSummary>)

  /**
   * The outcome of `list_recent_sessions`: the sessions shown, an error status, or
   * the `TypeError` Python raises when two or more sessions are sorted and one
   * has no `last_seen` (a `None` does not compare with a string or with `None`).
   */
  datatype Listing = Listed(sessions: seq<SessionSummary>) | FetchFailed(status: int) | UnorderableTimestamps

  /** `if session_id`: the trace names a non-empty session id. */
  predicate HasSession(t: Trace) {
    t.sessionId.Some? && t.sessionId.value != ""
  }

  function FirstInputOf(t: Trace, render: Json -> string): string {
    Truncate(Show(t.input.GetOr(JString("")), render), FIRST_INPUT_LENGTH)
  }

  /** One iteration of the grouping loop. */
  function Absorb(s: Sessions, t: Trace, render: Json -> string): Sessions {
    if !HasSession(t) then s
    else
      var k := t.sessionId.value;
      if k !in s.table then
        Sessions(s.order + [k], s.table[k := SessionSummary(k, t.timestamp, t.timestamp, 1, FirstInputOf(t, render))])
      else
        Sessions(s.order, s.table[k := s.table[k].(traceCount := s.table[k].traceCount + 1, lastSeen := t.timestamp)])
  }

  /** The `sessions` dict after the loop over `traces`. */
  function Aggregate(traces: seq<Trace>, render: Json -> string): Sessions {
    if traces == [] then Sessions([], map[])
    else Absorb(Aggregate(traces[..|traces| - 1], render), traces[|traces| - 1], render)
  }

  /** The grouping loop of `list_recent_sessions`. */
  method CollectSessions(traces: seq<Trace>, render: Json -> string) returns (order: seq<string>, sessions: map<string, SessionSummary>)
    ensures Sessions(order, sessions) == Aggregate(traces, render)
  {
    order, sessions := [], map[];
    for i := 0 to |traces|
      invariant Sessions(order, sessions) == Aggregate(traces[..i], render)
    {
      assert traces[..i + 1][..i] == traces[..i];
      var trace := traces[i];
      var sessionId := trace.sessionId;
      if sessionId.Some? && sessionId.value != "" && sessionId.value !in sessions {
        var k := sessionId.value;
        order := order + [k];
        sessions := sessions[k := SessionSummary(k, trace.timestamp, trace.timestamp, 1,
                                                 Truncate(Show(trace.input.GetOr(JString("")), render), FIRST_INPUT_LENGTH))];
      } else if sessionId.Some? && sessionId.value != "" {
        var k := sessionId.value;
        sessions := sessions[k := sessions[k].(traceCount := sessions[k].traceCount + 1, lastSeen := trace.timestamp)];
      }
    }
    assert traces[..|traces|] == traces;
  }

  /** The number of traces of session `k`. */
  function TracesOf(traces: seq<Trace>, k: string): nat {
    if traces == [] then 0
    else TracesOf(traces[..|traces| - 1], k) + (if traces[|traces| - 1].sessionId == Some(k) then 1 else 0)
  }

  /** The first trace of session `k`, if any. */
  function FirstOf(traces: seq<Trace>, k: string): Option<Trace> {
    if traces == [] then None
    else
      var earlier := FirstOf(traces[..|traces| - 1], k);
      if earlier.Some? then earlier
      else if traces[|traces| - 1].sessionId == Some(k) then Some(traces[|traces| - 1])
      else None
  }

  /** The last trace of session `k`, if any. */
  function LastOf(traces: seq<Trace>, k: string): Option<Trace> {
    if traces == [] then None
    else if traces[|traces| - 1].sessionId == Some(k) then Some(traces[|traces| - 1])
    else LastOf(traces[..|traces| - 1], k)
  }

  /** The number of traces that name a session. */
  function TracesWithSession(traces: seq<Trace>): nat {
    if traces == [] then 0
    else TracesWithSession(traces[..|traces| - 1]) + (if HasSession(traces[|traces| - 1]) then 1 else 0)
  }

  /** The position of the first trace of session `k`, or `|traces|` when no trace names it. */
  function FirstIndex(traces: seq<Trace>, k: string): (r: nat)
    ensures r <= |traces|
    ensures r < |traces| ==> traces[r].sessionId == Some(k)
    ensures forall i :: 0 <= i < r ==> traces[i].sessionId != Some(k)
  {
    if traces == [] then 0
    else
      var p := FirstIndex(traces[..|traces| - 1], k);
      if p < |traces| - 1 || traces[|traces| - 1].sessionId == Some(k) then p else p + 1
  }

  lemma {:induction false} FirstIndexFound(traces: seq<Trace>, k: string)
    ensures FirstIndex(traces, k) < |traces| <==> TracesOf(traces, k) > 0
  {
    if traces != [] {
      FirstIndexFound(traces[..|traces| - 1], k);
    }
  }

  /** The dict's insertion order lists each key once, and exactly the keys. */
  ghost predicate OrderMatches(s: Sessions) {
    (forall i, j :: 0 <= i < j < |s.order| ==> s.order[i] != s.order[j])
    && (forall k :: k in s.table <==> k in s.order)
  }

  /** `summary` is what the traces say about session `k`. */
  predicate Summarises(summary: SessionSummary, k: string, traces: seq<Trace>, render: Json -> string) {
    FirstOf(traces, k).Some? && LastOf(traces, k).Some?
    && summary.id == k
    && summary.firstSeen == FirstOf(traces, k).value.timestamp
    && summary.lastSeen == LastOf(traces, k).value.timestamp
    && summary.traceCount == TracesOf(traces, k)
    && summary.firstInput == FirstInputOf(FirstOf(traces, k).value, render)
  }

  lemma {:induction false} FirstOfNoneIffNoTraces(traces: seq<Trace>, k: string)
    ensures FirstOf(traces, k).None? <==> TracesOf(traces, k) == 0
    ensures LastOf(traces, k).None? <==> TracesOf(traces, k) == 0
  {
    if traces != [] {
      FirstOfNoneIffNoTraces(traces[..|traces| - 1], k);
    }
  }

  /**
   * The grouping is faithful: a session is listed exactly when some trace names it
   * (with a non-empty id); its first/last timestamps come from its first and last
   * trace, its count is its number of traces, and its first input is its first
   * trace's input, cut to 50 characters.
   */
  lemma {:induction false} AggregateSummaries(traces: seq<Trace>, render: Json -> string)
    ensures var s := Aggregate(traces, render);
            OrderMatches(s)
            && (forall k :: k in s.table <==> k != "" && TracesOf(traces, k) > 0)
            && (forall k :: k in s.table ==> Summarises(s.table[k], k, traces, render))
  {
    if traces != [] {
      var prefix := traces[..|traces| - 1];
      var t := traces[|traces| - 1];
      AggregateSummaries(prefix, render);
      var s0 := Aggregate(prefix, render);
      var s := Aggregate(traces, render);
      forall k | k in s.table ensures Summarises(s.table[k], k, traces, render) {
        FirstOfNoneIffNoTraces(prefix, k);
      }
      forall k ensures k in s.table <==> k != "" && TracesOf(traces, k) > 0 {
        FirstOfNoneIffNoTraces(prefix, k);
      }
      if HasSession(t) && t.sessionId.value !in s0.table {
        var k := t.sessionId.value;
        forall i, j | 0 <= i < j < |s.order| ensures s.order[i] != s.order[j] {
          if j == |s.order| - 1 {
            assert s.order[i] in s0.order;
          } else {
            assert s.order[i] == s0.order[i] && s.order[j] == s0.order[j];
          }
        }
      }
    }
  }

  /**
   * The dict lists its keys in the order their sessions first appear among the
   * traces; with the keys distinct and exactly the named sessions, this fixes
   * `order` completely.
   */
  lemma {:induction false} AggregateFirstSeenOrder(traces: seq<Trace>, render: Json -> string)
    ensures var s := Aggregate(traces, render);
            forall i, j :: 0 <= i < j < |s.order| ==> FirstIndex(traces, s.order[i]) < FirstIndex(traces, s.order[j])
    ensures var s := Aggregate(traces, render);
            forall i :: 0 <= i < |s.order| ==> FirstIndex(traces, s.order[i]) < |traces|
  {
    if traces != [] {
      var prefix := traces[..|traces| - 1];
      var t := traces[|traces| - 1];
      AggregateFirstSeenOrder(prefix, render);
      AggregateSummaries(prefix, render);
      var s0 := Aggregate(prefix, render);
      var s := Aggregate(traces, render);
      forall i | 0 <= i < |s0.order|
        ensures FirstIndex(traces, s0.order[i]) == FirstIndex(prefix, s0.order[i]) < |prefix|
      {
      }
      if HasSession(t) && t.sessionId.value !in s0.table {
        var k := t.sessionId.value;
        FirstIndexFound(prefix, k);
        assert FirstIndex(traces, k) == |prefix|;
        assert s.order == s0.order + [k];
      }
    }
  }

  /** The sum of the trace counts over the listed keys. */
  function SumCounts(order: seq<string>, table: map<string, SessionSummary>): nat {
    if order == [] then 0
    else SumCounts(order[..|order| - 1], table) + (if order[|order| - 1] in table then table[order[|order| - 1]].traceCount else 0)
  }

  /** Replacing the entry of a key that occurs at most once in `order` changes the sum by the difference. */
  lemma {:induction false} SumCountsUpdate(order: seq<string>, table: map<string, SessionSummary>, k: string, v: SessionSummary)
    requires forall i, j :: 0 <= i < j < |order| ==> order[i] != order[j]
    requires k in table
    ensures SumCounts(order, table[k := v]) + (if k in order then table[k].traceCount else 0)
            == SumCounts(order, table) + (if k in order then v.traceCount else 0)
  {
    if order != [] {
      var prefix := order[..|order| - 1];
      SumCountsUpdate(prefix, table, k, v);
      assert order == prefix + [order[|order| - 1]];
      if order[|order| - 1] == k {
        assert k !in prefix;
      }
    }
  }

  /** A key not yet listed does not contribute to the sum. */
  lemma {:induction false} SumCountsFresh(order: seq<string>, table: map<string, SessionSummary>, k: string, v: SessionSummary)
    requires k !in order
    ensures SumCounts(order, table[k := v]) == SumCounts(order, table)
  {
    if order != [] {
      SumCountsFresh(order[..|order| - 1], table, k, v);
    }
  }

  /** Every trace with a session is counted exactly once. */
  lemma {:induction false} AggregateCountsAllTraces(traces: seq<Trace>, render: Json -> string)
    ensures var s := Aggregate(traces, render);
            SumCounts(s.order, s.table) == TracesWithSession(traces)
  {
    if traces != [] {
      var prefix := traces[..|traces| - 1];
      var t := traces[|traces| - 1];
      AggregateCountsAllTraces(prefix, render);
      AggregateSummaries(prefix, render);
      var s0 := Aggregate(prefix, render);
      if HasSession(t) {
        var k := t.sessionId.value;
        if k !in s0.table {
          var v := SessionSummary(k, t.timestamp, t.timestamp, 1, FirstInputOf(t, render));
          SumCountsFresh(s0.order, s0.table, k, v);
          assert (s0.order + [k])[..|s0.order|] == s0.order;
        } else {
          var v := s0.table[k].(traceCount := s0.table[k].traceCount + 1, lastSeen := t.timestamp);
          SumCountsUpdate(s0.order, s0.table, k, v);
        }
      }
    }
  }

  /** `x.get("last_seen", "")`, for summaries whose `last_seen` is a string. */
  function LastSeenKey(s: SessionSummary): string {
    s.lastSeen.GetOr("")
  }

  /** `sessions.values()` in insertion order. */
  function Values(s: Sessions): seq<SessionSummary>
    decreases |s.order|
  {
    if s.order == [] then []
    else
      var k := s.order[|s.order| - 1];
      Values(Sessions(s.order[..|s.order| - 1], s.table)) + (if k in s.table then [s.table[k]] else [])
  }

  /** The listing for a reply of the traces endpoint and a limit. */
  function RecentSessions(resp: ListResponse<Trace>, limit: int, render: Json -> string): Listing {
    if resp.status != 200 then FetchFailed(resp.status)
    else
      var values := Values(Aggregate(resp.data.GetOr([]), render));
      if |values| >= 2 && exists i :: 0 <= i < |values| && values[i].lastSeen.None? then UnorderableTimestamps
      else Listed(TakePrefix(SortByKey(values, LastSeenKey, true), limit))
  }

  /** `list_recent_sessions` without its printing: group, sort newest first, cut to `limit`. */
  method ListRecentSessions(resp: ListResponse<Trace>, limit: int, render: Json -> string) returns (listing: Listing)
    ensures listing == RecentSessions(resp, limit, render)
  {
    if resp.status != 200 {
      return FetchFailed(resp.status);
    }
    var traces := resp.data.GetOr([]);
    var order, sessions := CollectSessions(traces, render);
    var values := Values(Sessions(order, sessions));
    var unorderable := false;
    if |values| >= 2 {
      for i := 0 to |values|
        invariant unorderable <==> exists k :: 0 <= k < i && values[k].lastSeen.None?
      {
        if values[i].lastSeen.None? {
          unorderable := true;
        }
      }
    }
    if unorderable {
      return UnorderableTimestamps;
    }
    var sortedSessions := SortByKey(values, LastSeenKey, true);
    listing := Listed(TakePrefix(sortedSessions, limit));
  }

  /** A prefix of a sorted sequence is sorted. */
  lemma PrefixSorted<T>(s: seq<T>, r: seq<T>, key: T -> string, descending: bool)
    requires SortedBy(s, key, descending) && r <= s
    ensures SortedBy(r, key, descending)
  {
    assert forall i :: 0 <= i < |r| ==> r[i] == s[i];
  }

  /**
   * A listing is newest first, holds at most `limit` sessions (for a non-negative
   * limit), and takes its sessions, in sorted order, from all sessions seen.
   */
  lemma RecentSessionsSorted(resp: ListResponse<Trace>, limit: int, render: Json -> string)
    requires RecentSessions(resp, limit, render).Listed?
    ensures var shown := RecentSessions(resp, limit, render).sessions;
            var values := Values(Aggregate(resp.data.GetOr([]), render));
            SortedBy(shown, LastSeenKey, true)
            && (0 <= limit ==> |shown| <= limit)
            && shown <= SortByKey(values, LastSeenKey, true)
            && multiset(SortByKey(values, LastSeenKey, true)) == multiset(values)
  {
    var values := Values(Aggregate(resp.data.GetOr([]), render));
    SortByKeyPermutes(values, LastSeenKey, true);
    SortByKeySorted(values, LastSeenKey, true);
    PrefixSorted(SortByKey(values, LastSeenKey, true), RecentSessions(resp, limit, render).sessions, LastSeenKey, true);
  }

  /** With every `last_seen` present, the sort succeeds and the listing is produced. */
  lemma ListedWhenTimestamped(resp: ListResponse<Trace>, limit: int, render: Json -> string)
    requires resp.status == 200
    requires forall t :: t in resp.data.GetOr([]) ==> t.timestamp.Some?
    ensures RecentSessions(resp, limit, render).Listed?
  {
    var traces := resp.data.GetOr([]);
    AggregateSummaries(traces, render);
    ValuesOfTable(Aggregate(traces, render));
    var s := Aggregate(traces, render);
    forall v | v in Values(s) ensures v.lastSeen.Some? {
      var k :| k in s.table && s.table[k] == v;
      LastOfIsTrace(traces, k);
    }
  }

  lemma {:induction false} ValuesOfTable(s: Sessions)
    ensures forall v :: v in Values(s) ==> exists k :: k in s.table && s.table[k] == v
    decreases |s.order|
  {
    if s.order != [] {
      ValuesOfTable(Sessions(s.order[..|s.order| - 1], s.table));
    }
  }

  lemma {:induction false} LastOfIsTrace(traces: seq<Trace>, k: string)
    ensures LastOf(traces, k).Some? ==> LastOf(traces, k).value in traces
  {
    if traces != [] {
      LastOfIsTrace(traces[..|traces| - 1], k);
    }
  }
}
