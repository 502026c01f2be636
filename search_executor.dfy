/**
 * The search executor agent (agents/search_executor.py): asks the enabled sources for
 * results, merges their lists (failed sources contribute nothing, URLs are deduplicated
 * keeping the first occurrence, results without a URL are dropped), truncates the merged
 * list and stamps every result with the retrieval time and the execution time.
 *
 * The two source adapters are network calls; here each is a function from the query and
 * the result limit to a `SourceOutcome`.
 */
module SearchExecutor {
  import opened Common
  import QueryProcessor
  import Agent
  import Metrics

  /** One search result. A key the record lacks reads as the empty string for `title`,
      `url` and `snippet`; a missing `source` is `None`. `relevanceScore` and `rank` are
      filled in by the analysis agent, the two annotations by `SearchParallel`. */
  datatype SearchResult = SearchResult(
    title: string,
    url: string,
    snippet: string,
    source: Option<string>,
    position: int,
    relevanceScore: real,
    retrievedAt: Option<real>,
    searchExecutionTimeMs: Option<real>,
    rank: Option<nat>)

  /** What one source task of `asyncio.gather(..., return_exceptions=True)` yields. */
  datatype SourceOutcome = Found(results: seq<SearchResult>) | Raised(error: string)

  /** The results one outcome contributes to the merge: none when the task raised. */
  function Contribution(o: SourceOutcome): seq<SearchResult> {
    match o
    case Found(rs) => rs
    case Raised(_) => []
  }

  /** The outcomes' result lists concatenated in task order. */
  function Gathered(outcomes: seq<SourceOutcome>): seq<SearchResult> {
    if outcomes == [] then []
    else Gathered(outcomes[..|outcomes| - 1]) + Contribution(outcomes[|outcomes| - 1])
  }

  /** Gathering distributes over concatenation of the outcome lists. */
  lemma {:induction false} GatheredAppend(o1: seq<SourceOutcome>, o2: seq<SourceOutcome>)
    ensures Gathered(o1 + o2) == Gathered(o1) + Gathered(o2)
    decreases |o2|
  {
    if o2 == [] {
      assert o1 + o2 == o1;
    } else {
      var all, init, last := o1 + o2, o2[..|o2| - 1], o2[|o2| - 1];
      assert all[..|all| - 1] == o1 + init && all[|all| - 1] == last;
      GatheredAppend(o1, init);
      calc {
        Gathered(all);
        Gathered(o1 + init) + Contribution(last);
        Gathered(o1) + Gathered(init) + Contribution(last);
        Gathered(o1) + (Gathered(init) + Contribution(last));
        Gathered(o1) + Gathered(o2);
      }
    }
  }

  /** A failed source adds nothing, wherever it sits among the outcomes. */
  lemma GatheredSkipsRaised(before: seq<SourceOutcome>, error: string, after: seq<SourceOutcome>)
    ensures Gathered(before + [Raised(error)] + after) == Gathered(before) + Gathered(after)
  {
    var failed := [Raised(error)];
    assert failed[..0] == [];
    assert Gathered(failed) == [];
    GatheredAppend(before, failed);
    assert Gathered(before + failed) == Gathered(before);
    GatheredAppend(before + failed, after);
  }

  /** The URLs of a result list, in order. */
  function Urls(rs: seq<SearchResult>): (us: seq<string>)
    ensures |us| == |rs| && forall i :: 0 <= i < |rs| ==> us[i] == rs[i].url
  {
    seq(|rs|, i requires 0 <= i < |rs| => rs[i].url)
  }

  /** The URL deduplication of `_merge_results`: a result is kept when its URL is non-empty
      and not among `seen`, the URLs already kept. */
  function Dedup(rs: seq<SearchResult>, seen: set<string>): seq<SearchResult> {
    if rs == [] then []
    else if rs[0].url != "" && rs[0].url !in seen then [rs[0]] + Dedup(rs[1..], seen + {rs[0].url})
    else Dedup(rs[1..], seen)
  }

  /** The first result of `rs` carrying URL `u`, if any. */
  function FirstWithUrl(rs: seq<SearchResult>, u: string): Option<SearchResult> {
    if rs == [] then None
    else if rs[0].url == u then Some(rs[0])
    else FirstWithUrl(rs[1..], u)
  }

  /** No kept result has an empty URL or one of the URLs seen before. */
  lemma {:induction false} DedupFreshUrls(rs: seq<SearchResult>, seen: set<string>)
    ensures forall i :: 0 <= i < |Dedup(rs, seen)| ==>
      Dedup(rs, seen)[i].url != "" && Dedup(rs, seen)[i].url !in seen
  {
    if rs != [] {
      if rs[0].url != "" && rs[0].url !in seen {
        DedupFreshUrls(rs[1..], seen + {rs[0].url});
      } else {
        DedupFreshUrls(rs[1..], seen);
      }
    }
  }

  /** The kept results have pairwise distinct URLs. */
  lemma {:induction false} DedupDistinctUrls(rs: seq<SearchResult>, seen: set<string>)
    ensures forall i, j :: 0 <= i < j < |Dedup(rs, seen)| ==> Dedup(rs, seen)[i].url != Dedup(rs, seen)[j].url
  {
    if rs != [] {
      if rs[0].url != "" && rs[0].url !in seen {
        var rest := Dedup(rs[1..], seen + {rs[0].url});
        DedupDistinctUrls(rs[1..], seen + {rs[0].url});
        DedupFreshUrls(rs[1..], seen + {rs[0].url});
        assert Dedup(rs, seen) == [rs[0]] + rest;
      } else {
        DedupDistinctUrls(rs[1..], seen);
      }
    }
  }

  /** The kept results appear in the input, in input order. */
  lemma {:induction false} DedupSubsequence(rs: seq<SearchResult>, seen: set<string>)
    ensures IsSubsequence(Dedup(rs, seen), rs)
  {
    if rs != [] {
      assert [rs[0]] + rs[1..] == rs;
      if rs[0].url != "" && rs[0].url !in seen {
        DedupSubsequence(rs[1..], seen + {rs[0].url});
        assert ([rs[0]] + Dedup(rs[1..], seen + {rs[0].url}))[1..] == Dedup(rs[1..], seen + {rs[0].url});
      } else {
        DedupSubsequence(rs[1..], seen);
        SubsequenceSkip(Dedup(rs[1..], seen), rs[0], rs[1..]);
      }
    }
  }

  /** Every non-empty URL of the input that was not seen before is represented. */
  lemma {:induction false} DedupCovers(rs: seq<SearchResult>, seen: set<string>)
    ensures forall k :: 0 <= k < |rs| && rs[k].url != "" && rs[k].url !in seen ==> rs[k].url in Urls(Dedup(rs, seen))
  {
    if rs != [] {
      if rs[0].url != "" && rs[0].url !in seen {
        var rest := Dedup(rs[1..], seen + {rs[0].url});
        DedupCovers(rs[1..], seen + {rs[0].url});
        assert Dedup(rs, seen) == [rs[0]] + rest;
        assert Urls(Dedup(rs, seen)) == [rs[0].url] + Urls(rest);
        forall k | 0 <= k < |rs| && rs[k].url != "" && rs[k].url !in seen
          ensures rs[k].url in Urls(Dedup(rs, seen))
        {
          if k > 0 && rs[k].url != rs[0].url {
            assert rs[1..][k - 1] == rs[k];
          }
        }
      } else {
        DedupCovers(rs[1..], seen);
        forall k | 0 <= k < |rs| && rs[k].url != "" && rs[k].url !in seen
          ensures rs[k].url in Urls(Dedup(rs, seen))
        {
          assert k > 0;
          assert rs[1..][k - 1] == rs[k];
        }
      }
    }
  }

  /** Each kept result is the first one of the input with its URL. */
  lemma {:induction false} DedupKeepsFirst(rs: seq<SearchResult>, seen: set<string>)
    ensures forall i :: 0 <= i < |Dedup(rs, seen)| ==> FirstWithUrl(rs, Dedup(rs, seen)[i].url) == Some(Dedup(rs, seen)[i])
  {
    if rs != [] {
      DedupFreshUrls(rs, seen);
      if rs[0].url != "" && rs[0].url !in seen {
        var seen' := seen + {rs[0].url};
        DedupKeepsFirst(rs[1..], seen');
        DedupFreshUrls(rs[1..], seen');
        assert Dedup(rs, seen) == [rs[0]] + Dedup(rs[1..], seen');
      } else {
        DedupKeepsFirst(rs[1..], seen);
      }
    }
  }

  /** `_merge_results`: concatenates the lists of the outcomes that did not raise, then
      keeps the first result for every non-empty URL. */
  method MergeResults(outcomes: seq<SourceOutcome>) returns (unique: seq<SearchResult>)
    ensures unique == Dedup(Gathered(outcomes), {})
  {
    var merged := ExtendAll(outcomes);
    unique := UniqueByUrl(merged);
  }

  /** The first loop of `_merge_results`: each list that is not an exception extends `merged`. */
  method ExtendAll(outcomes: seq<SourceOutcome>) returns (merged: seq<SearchResult>)
    ensures merged == Gathered(outcomes)
  {
    merged := [];
    var i := 0;
    while i < |outcomes|
      invariant 0 <= i <= |outcomes|
      invariant merged == Gathered(outcomes[..i])
    {
      assert outcomes[..i + 1][..i] == outcomes[..i];
      assert Gathered(outcomes[..i + 1]) == Gathered(outcomes[..i]) + Contribution(outcomes[i]);
      match outcomes[i] {
        case Found(rs) => merged := merged + rs;
        case Raised(_) =>
      }
      i := i + 1;
    }
    assert outcomes[..i] == outcomes;
  }

  /** The second loop of `_merge_results`: a result is kept when its URL is non-empty and
      not yet in `seenUrls`, which then records it. */
  method UniqueByUrl(merged: seq<SearchResult>) returns (unique: seq<SearchResult>)
    ensures unique == Dedup(merged, {})
  {
    var seenUrls: set<string> := {};
    unique := [];
    var j := 0;
    while j < |merged|
      invariant 0 <= j <= |merged|
      invariant unique + Dedup(merged[j..], seenUrls) == Dedup(merged, {})
    {
      var result := merged[j];
      assert merged[j..][1..] == merged[j + 1..];
      if result.url != "" && result.url !in seenUrls {
        seenUrls := seenUrls + {result.url};
        unique := unique + [result];
      }
      j := j + 1;
    }
    assert merged[j..] == [];
  }

  /** The sources searched when the caller names none. */
  const DefaultSources: seq<string> := ["duckduckgo", "wikipedia"]

  /** The outcomes of the source tasks: DuckDuckGo first, then Wikipedia, each only when it
      is named and its library is available. Each adapter gets the query and the limit. */
  function Outcomes(query: string, maxResults: int, sources: Option<seq<string>>,
                    duckduckgoAvailable: bool, wikipediaAvailable: bool,
                    duckduckgo: (string, int) -> SourceOutcome,
                    wikipedia: (string, int) -> SourceOutcome): seq<SourceOutcome>
  {
    var names := if sources.Some? then sources.value else DefaultSources;
    (if "duckduckgo" in names && duckduckgoAvailable then [duckduckgo(query, maxResults)] else [])
    + (if "wikipedia" in names && wikipediaAvailable then [wikipedia(query, maxResults)] else [])
  }

  /** At most two sources are asked; a source is asked exactly when it is named (or no
      names are given and it is a default) and available; DuckDuckGo is asked first and
      Wikipedia last. */
  lemma OutcomesShape(query: string, maxResults: int, sources: Option<seq<string>>,
                      duckduckgoAvailable: bool, wikipediaAvailable: bool,
                      duckduckgo: (string, int) -> SourceOutcome,
                      wikipedia: (string, int) -> SourceOutcome)
    ensures var os := Outcomes(query, maxResults, sources, duckduckgoAvailable, wikipediaAvailable, duckduckgo, wikipedia);
      var names := if sources.Some? then sources.value else DefaultSources;
      && |os| <= 2
      && (os == [] <==> !("duckduckgo" in names && duckduckgoAvailable) && !("wikipedia" in names && wikipediaAvailable))
      && ("duckduckgo" in names && duckduckgoAvailable ==> os[0] == duckduckgo(query, maxResults))
      && ("wikipedia" in names && wikipediaAvailable ==> os[|os| - 1] == wikipedia(query, maxResults))
      && (|os| == 2 <==> "duckduckgo" in names && duckduckgoAvailable && "wikipedia" in names && wikipediaAvailable)
  {
  }

  /** The stamp the loop at the end of `search_parallel` puts on every result; the
      per-result clock readings are taken as the one reading `retrievedAt`. */
  function Annotated(rs: seq<SearchResult>, retrievedAt: real, executionTimeMs: real): (out: seq<SearchResult>)
    ensures |out| == |rs|
    ensures forall i :: 0 <= i < |rs| ==>
      out[i] == rs[i].(retrievedAt := Some(retrievedAt), searchExecutionTimeMs := Some(executionTimeMs))
  {
    seq(|rs|, i requires 0 <= i < |rs| =>
      rs[i].(retrievedAt := Some(retrievedAt), searchExecutionTimeMs := Some(executionTimeMs)))
  }

  /** The list `search_parallel` returns when nothing raises. */
  function Retrieved(query: string, maxResults: int, sources: Option<seq<string>>,
                     duckduckgoAvailable: bool, wikipediaAvailable: bool,
                     duckduckgo: (string, int) -> SourceOutcome,
                     wikipedia: (string, int) -> SourceOutcome,
                     retrievedAt: real, executionTimeMs: real): seq<SearchResult>
  {
    Annotated(Kept(query, maxResults, sources, duckduckgoAvailable, wikipediaAvailable, duckduckgo, wikipedia),
              retrievedAt, executionTimeMs)
  }

  /** The merged results of the searched sources, cut to `maxResults`, before stamping. */
  function Kept(query: string, maxResults: int, sources: Option<seq<string>>,
                duckduckgoAvailable: bool, wikipediaAvailable: bool,
                duckduckgo: (string, int) -> SourceOutcome,
                wikipedia: (string, int) -> SourceOutcome): seq<SearchResult>
  {
    var outcomes := Outcomes(query, maxResults, sources, duckduckgoAvailable, wikipediaAvailable, duckduckgo, wikipedia);
    PyPrefix(Dedup(Gathered(outcomes), {}), maxResults)
  }

  /** A merge cut to a limit never exceeds the limit and keeps distinct non-empty URLs. */
  lemma MergedPrefixShape(gathered: seq<SearchResult>, maxResults: int)
    ensures var k := PyPrefix(Dedup(gathered, {}), maxResults);
      && (maxResults >= 0 ==> |k| <= maxResults)
      && (forall i :: 0 <= i < |k| ==> k[i].url != "")
      && (forall i, j :: 0 <= i < j < |k| ==> k[i].url != k[j].url)
  {
    var merged := Dedup(gathered, {});
    DedupFreshUrls(gathered, {});
    DedupDistinctUrls(gathered, {});
    var kept := PyPrefix(merged, maxResults);
    assert forall i :: 0 <= i < |kept| ==> kept[i] == merged[i];
  }

  /** The kept list never exceeds the limit and keeps distinct non-empty URLs. */
  lemma KeptShape(query: string, maxResults: int, sources: Option<seq<string>>,
                  duckduckgoAvailable: bool, wikipediaAvailable: bool,
                  duckduckgo: (string, int) -> SourceOutcome,
                  wikipedia: (string, int) -> SourceOutcome)
    ensures var k := Kept(query, maxResults, sources, duckduckgoAvailable, wikipediaAvailable, duckduckgo, wikipedia);
      && (maxResults >= 0 ==> |k| <= maxResults)
      && (forall i :: 0 <= i < |k| ==> k[i].url != "")
      && (forall i, j :: 0 <= i < j < |k| ==> k[i].url != k[j].url)
  {
    MergedPrefixShape(Gathered(Outcomes(query, maxResults, sources, duckduckgoAvailable, wikipediaAvailable,
                                        duckduckgo, wikipedia)), maxResults);
  }

  /** The retrieved list never exceeds the limit, keeps distinct non-empty URLs, and carries
      the given stamps on every result. */
  lemma RetrievedShape(query: string, maxResults: int, sources: Option<seq<string>>,
                       duckduckgoAvailable: bool, wikipediaAvailable: bool,
                       duckduckgo: (string, int) -> SourceOutcome,
                       wikipedia: (string, int) -> SourceOutcome,
                       retrievedAt: real, executionTimeMs: real)
    ensures var r := Retrieved(query, maxResults, sources, duckduckgoAvailable, wikipediaAvailable,
                               duckduckgo, wikipedia, retrievedAt, executionTimeMs);
      && (maxResults >= 0 ==> |r| <= maxResults)
      && (forall i :: 0 <= i < |r| ==> r[i].url != "")
      && (forall i, j :: 0 <= i < j < |r| ==> r[i].url != r[j].url)
      && (forall i :: 0 <= i < |r| ==>
            r[i].retrievedAt == Some(retrievedAt) && r[i].searchExecutionTimeMs == Some(executionTimeMs))
  {
    KeptShape(query, maxResults, sources, duckduckgoAvailable, wikipediaAvailable, duckduckgo, wikipedia);
  }

  /** With no source both named and available, the result is the empty list, not an error. */
  lemma NoSourceNoResults(query: string, maxResults: int, sources: Option<seq<string>>,
                          duckduckgoAvailable: bool, wikipediaAvailable: bool,
                          duckduckgo: (string, int) -> SourceOutcome,
                          wikipedia: (string, int) -> SourceOutcome,
                          retrievedAt: real, executionTimeMs: real)
    requires var names := if sources.Some? then sources.value else DefaultSources;
      !("duckduckgo" in names && duckduckgoAvailable) && !("wikipedia" in names && wikipediaAvailable)
    ensures Retrieved(query, maxResults, sources, duckduckgoAvailable, wikipediaAvailable,
                      duckduckgo, wikipedia, retrievedAt, executionTimeMs) == []
  {
  }

  /** With both sources searched, DuckDuckGo's results come before Wikipedia's. */
  lemma BothSourcesInOrder(query: string, maxResults: int, duckduckgo: (string, int) -> SourceOutcome,
                           wikipedia: (string, int) -> SourceOutcome)
    ensures Gathered(Outcomes(query, maxResults, None, true, true, duckduckgo, wikipedia))
      == Contribution(duckduckgo(query, maxResults)) + Contribution(wikipedia(query, maxResults))
  {
    var d, w := duckduckgo(query, maxResults), wikipedia(query, maxResults);
    assert Outcomes(query, maxResults, None, true, true, duckduckgo, wikipedia) == [d, w];
    assert [d, w][..1] == [d];
    assert [d][..0] == [];
    assert Gathered([d]) == Gathered([]) + Contribution(d);
    assert Gathered([d, w]) == Gathered([d]) + Contribution(w);
  }

  class SearchExecutorAgent {
    const base: Agent.BaseAgent
    /** Whether the DuckDuckGo and Wikipedia libraries could be imported. */
    const duckduckgoAvailable: bool
    const wikipediaAvailable: bool

    constructor (metrics: Metrics.MetricsCollector?, duckduckgoAvailable: bool, wikipediaAvailable: bool)
      ensures fresh(base) && base.name == "SearchExecutorAgent" && base.metrics == metrics
      ensures base.status == Agent.Initializing && base.tasksCompleted == 0
      ensures this.duckduckgoAvailable == duckduckgoAvailable && this.wikipediaAvailable == wikipediaAvailable
    {
      base := new Agent.BaseAgent("SearchExecutorAgent", metrics);
      this.duckduckgoAvailable := duckduckgoAvailable;
      this.wikipediaAvailable := wikipediaAvailable;
    }

    /** The annotation loop: every result gets the retrieval time and the execution time. */
    static method Annotate(rs: seq<SearchResult>, retrievedAt: real, executionTimeMs: real) returns (out: seq<SearchResult>)
      ensures out == Annotated(rs, retrievedAt, executionTimeMs)
    {
      out := [];
      var i := 0;
      while i < |rs|
        invariant 0 <= i <= |rs|
        invariant out == Annotated(rs[..i], retrievedAt, executionTimeMs)
      {
        out := out + [rs[i].(retrievedAt := Some(retrievedAt), searchExecutionTimeMs := Some(executionTimeMs))];
        i := i + 1;
      }
      assert rs[..i] == rs;
    }

    /** `search_parallel` between the clock readings `t0` and `t1`; `retrievedAt` is the
        reading stamped on the results and `fault` an exception raised before `end_task`. */
    method SearchParallel(pq: QueryProcessor.ProcessedQuery, maxResults: int, sources: Option<seq<string>>,
                          duckduckgo: (string, int) -> SourceOutcome,
                          wikipedia: (string, int) -> SourceOutcome,
                          t0: real, t1: real, retrievedAt: real, fault: Option<string>)
      returns (r: Result<seq<SearchResult>>)
      modifies base, base.metrics
      ensures fault.None? ==>
        && r == Ok(Retrieved(pq.normalizedQuery, maxResults, sources, duckduckgoAvailable, wikipediaAvailable,
                             duckduckgo, wikipedia, retrievedAt, (t1 - t0) * 1000.0))
        && Agent.CompletedTask(base, t0, t1)
      ensures fault.Some? ==>
        r == Err("Search execution failed: " + fault.value) && Agent.LeftTask(base, t0, Agent.Error)
    {
      var startTime := base.StartTask(t0);
      if fault.Some? {
        base.FailTask();
        return Err("Search execution failed: " + fault.value);
      }
      var merged := Collect(pq.normalizedQuery, maxResults, sources, duckduckgo, wikipedia);
      var executionTime := base.EndTask(startTime, t1);
      var annotated := Annotate(merged, retrievedAt, executionTime);
      r := Ok(annotated);
    }

    /** The source tasks of `search_parallel`, their merge and the cut to `max_results`. */
    method Collect(query: string, maxResults: int, sources: Option<seq<string>>,
                   duckduckgo: (string, int) -> SourceOutcome,
                   wikipedia: (string, int) -> SourceOutcome)
      returns (merged: seq<SearchResult>)
      ensures merged == Kept(query, maxResults, sources, duckduckgoAvailable, wikipediaAvailable, duckduckgo, wikipedia)
    {
      var names := if sources.Some? then sources.value else DefaultSources;
      var tasks: seq<SourceOutcome> := [];
      if "duckduckgo" in names && duckduckgoAvailable {
        tasks := tasks + [duckduckgo(query, maxResults)];
      }
      if "wikipedia" in names && wikipediaAvailable {
        tasks := tasks + [wikipedia(query, maxResults)];
      }
      merged := MergeResults(tasks);
      merged := PyPrefix(merged, maxResults);
    }
  }
}
