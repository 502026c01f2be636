/**
 * The metrics collector (metrics.py): search and error counters, a history of the last
 * 100 searches, per-agent lists of execution times, and their aggregates. Timestamps are
 * clock readings passed in as parameters instead of ISO strings.
 */
module Metrics {

  /** `deque(maxlen=100)`. */
  const HistoryCapacity: nat := 100

  datatype SearchRecord = SearchRecord(query: string, timestamp: real)

  datatype Execution = Execution(executionTimeMs: real, timestamp: real)

  datatype AgentMetrics = AgentMetrics(
    agentName: string,
    totalExecutions: nat,
    avgExecutionTimeMs: real,
    minExecutionTimeMs: real,
    maxExecutionTimeMs: real)

  datatype Summary = Summary(
    uptimeSeconds: real,
    totalSearches: nat,
    errorCount: nat,
    searchesPerMinute: real,
    agentMetrics: map<string, AgentMetrics>,
    startTime: real)

  /** Appending to a bounded deque: when full, the oldest element falls out. */
  function AppendBounded<T>(h: seq<T>, x: T, cap: nat): seq<T>
    requires 0 < cap && |h| <= cap
  {
    if |h| < cap then h + [x] else h[1..] + [x]
  }

  /** The deque holds at most `cap` elements, the newest last, and is the newest suffix of
      the old contents followed by `x`. */
  lemma AppendBoundedShape<T>(h: seq<T>, x: T, cap: nat)
    requires 0 < cap && |h| <= cap
    ensures var r := AppendBounded(h, x, cap);
      && |r| == (if |h| < cap then |h| + 1 else cap)
      && r[|r| - 1] == x
      && r == (h + [x])[|h| + 1 - |r|..]
  {
    var r := AppendBounded(h, x, cap);
    if |h| == cap {
      assert (h + [x])[1..] == h[1..] + [x];
    }
  }

  function Sum(xs: seq<real>): real {
    if xs == [] then 0.0 else xs[0] + Sum(xs[1..])
  }

  function Minimum(xs: seq<real>): (m: real)
    requires xs != []
    ensures m in xs && forall i :: 0 <= i < |xs| ==> m <= xs[i]
  {
    if |xs| == 1 then xs[0]
    else var rest := Minimum(xs[1..]); if xs[0] <= rest then xs[0] else rest
  }

  function Maximum(xs: seq<real>): (m: real)
    requires xs != []
    ensures m in xs && forall i :: 0 <= i < |xs| ==> xs[i] <= m
  {
    if |xs| == 1 then xs[0]
    else var rest := Maximum(xs[1..]); if xs[0] >= rest then xs[0] else rest
  }

  /** A sum lies between `n` times any lower bound and `n` times any upper bound. */
  lemma {:induction false} SumBounds(xs: seq<real>, lo: real, hi: real)
    requires forall i :: 0 <= i < |xs| ==> lo <= xs[i] <= hi
    ensures |xs| as real * lo <= Sum(xs) <= |xs| as real * hi
  {
    if xs != [] {
      SumBounds(xs[1..], lo, hi);
    }
  }

  /** Dividing both bounds of `n * lo <= s <= n * hi` by a positive `n`. */
  lemma DivideBounds(s: real, n: real, lo: real, hi: real)
    requires n > 0.0 && n * lo <= s <= n * hi
    ensures lo <= s / n <= hi
  {
    assert s / n * n == s;
  }

  /** The mean of a non-empty list lies within any bounds of its elements. */
  lemma MeanBounds(xs: seq<real>, lo: real, hi: real)
    requires xs != []
    requires forall i :: 0 <= i < |xs| ==> lo <= xs[i] <= hi
    ensures lo <= Sum(xs) / |xs| as real <= hi
  {
    SumBounds(xs, lo, hi);
    var n, total := |xs| as real, Sum(xs);
    DivideBounds(total, n, lo, hi);
  }

  /** The mean of a non-empty list lies between its minimum and its maximum. */
  lemma MeanBetweenExtremes(xs: seq<real>)
    requires xs != []
    ensures Minimum(xs) <= Sum(xs) / |xs| as real <= Maximum(xs)
  {
    MeanBounds(xs, Minimum(xs), Maximum(xs));
  }

  function Times(es: seq<Execution>): (ts: seq<real>)
    ensures |ts| == |es| && forall i :: 0 <= i < |es| ==> ts[i] == es[i].executionTimeMs
  {
    seq(|es|, i requires 0 <= i < |es| => es[i].executionTimeMs)
  }

  /** The aggregates of one agent's samples. */
  function Aggregate(agentName: string, times: seq<real>): (r: AgentMetrics)
    ensures r.agentName == agentName && r.totalExecutions == |times|
    ensures times == [] ==> r == AgentMetrics(agentName, 0, 0.0, 0.0, 0.0)
    ensures times != [] ==>
      && r.minExecutionTimeMs <= r.avgExecutionTimeMs <= r.maxExecutionTimeMs
      && r.minExecutionTimeMs in times && r.maxExecutionTimeMs in times
      && (forall i :: 0 <= i < |times| ==> r.minExecutionTimeMs <= times[i] <= r.maxExecutionTimeMs)
      && r.avgExecutionTimeMs == Sum(times) / |times| as real
  {
    if times == [] then AgentMetrics(agentName, 0, 0.0, 0.0, 0.0)
    else
      MeanBetweenExtremes(times);
      AgentMetrics(agentName, |times|, Sum(times) / |times| as real, Minimum(times), Maximum(times))
  }

  class MetricsCollector {
    var totalSearches: nat
    /** `defaultdict(list)`: a name is a key once something was recorded for it. */
    var agentExecutions: map<string, seq<Execution>>
    var searchHistory: seq<SearchRecord>
    var errorCount: nat
    const startTime: real

    ghost predicate Valid()
      reads this
    {
      |searchHistory| <= HistoryCapacity
    }

    constructor (startTime: real)
      ensures Valid()
      ensures totalSearches == 0 && errorCount == 0
      ensures agentExecutions == map[] && searchHistory == []
      ensures this.startTime == startTime
    {
      totalSearches := 0;
      agentExecutions := map[];
      searchHistory := [];
      errorCount := 0;
      this.startTime := startTime;
    }

    /** Counts the search and makes it the newest history entry. */
    method RecordSearch(query: string, now: real)
      requires Valid()
      modifies this`totalSearches, this`searchHistory
      ensures Valid()
      ensures totalSearches == old(totalSearches) + 1
      ensures searchHistory == AppendBounded(old(searchHistory), SearchRecord(query, now), HistoryCapacity)
    {
      totalSearches := totalSearches + 1;
      searchHistory := AppendBounded(searchHistory, SearchRecord(query, now), HistoryCapacity);
    }

    /** Appends one sample to the named agent's list, creating the list if needed. */
    method RecordAgentExecution(agentName: string, executionTimeMs: real, now: real)
      modifies this`agentExecutions
      ensures agentExecutions == old(agentExecutions)[agentName :=
        (if agentName in old(agentExecutions) then old(agentExecutions)[agentName] else []) + [Execution(executionTimeMs, now)]]
    {
      var previous := if agentName in agentExecutions then agentExecutions[agentName] else [];
      agentExecutions := agentExecutions[agentName := previous + [Execution(executionTimeMs, now)]];
    }

    method RecordError()
      modifies this`errorCount
      ensures errorCount == old(errorCount) + 1
    {
      errorCount := errorCount + 1;
    }

    /** `list(history)[-limit:]`: a suffix of the history in chronological order; a limit of
        0 gives the whole history (Python's `-0` is `0`), a negative one drops that many of
        the oldest entries. */
    function GetSearchHistory(limit: int): (r: seq<SearchRecord>)
      reads this
      ensures |r| <= |searchHistory| && r == searchHistory[|searchHistory| - |r|..]
      ensures limit > 0 ==> |r| == if limit < |searchHistory| then limit else |searchHistory|
      ensures limit == 0 ==> r == searchHistory
      ensures limit < 0 ==> |r| == if -limit < |searchHistory| then |searchHistory| + limit else 0
    {
      var n := |searchHistory|;
      var start := if limit > 0 then (if limit < n then n - limit else 0)
                   else if -limit < n then -limit else n;
      searchHistory[start..]
    }

    /** Count, mean, minimum and maximum of an agent's samples; all zero when it has none. */
    function GetAgentMetrics(agentName: string): (r: AgentMetrics)
      reads this
      ensures r.agentName == agentName
      ensures agentName !in agentExecutions || agentExecutions[agentName] == [] ==>
        r == AgentMetrics(agentName, 0, 0.0, 0.0, 0.0)
      ensures agentName in agentExecutions && agentExecutions[agentName] != [] ==>
        && r.totalExecutions == |agentExecutions[agentName]|
        && r.minExecutionTimeMs <= r.avgExecutionTimeMs <= r.maxExecutionTimeMs
        && r.minExecutionTimeMs in Times(agentExecutions[agentName])
        && r.maxExecutionTimeMs in Times(agentExecutions[agentName])
        && (forall i :: 0 <= i < |agentExecutions[agentName]| ==>
              r.minExecutionTimeMs <= agentExecutions[agentName][i].executionTimeMs <= r.maxExecutionTimeMs)
        && r.avgExecutionTimeMs == Sum(Times(agentExecutions[agentName])) / r.totalExecutions as real
    {
      Aggregate(agentName, if agentName in agentExecutions then Times(agentExecutions[agentName]) else [])
    }

    /** Overall summary at clock reading `now`; searches per minute is 0 unless some time has passed. */
    function GetSummary(now: real): (r: Summary)
      reads this
      ensures r.uptimeSeconds == now - startTime
      ensures r.totalSearches == totalSearches && r.errorCount == errorCount
      ensures now - startTime <= 0.0 ==> r.searchesPerMinute == 0.0
      ensures now - startTime > 0.0 ==> r.searchesPerMinute * (now - startTime) == totalSearches as real * 60.0
      ensures r.agentMetrics.Keys == agentExecutions.Keys
      ensures forall name :: name in r.agentMetrics ==> r.agentMetrics[name] == GetAgentMetrics(name)
    {
      var uptime := now - startTime;
      Summary(
        uptime,
        totalSearches,
        errorCount,
        if uptime > 0.0 then totalSearches as real / (uptime / 60.0) else 0.0,
        map name | name in agentExecutions :: GetAgentMetrics(name),
        startTime)
    }
  }
}
