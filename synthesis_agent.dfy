/**
 * The synthesis agent (agents/synthesis_agent.py): from the top five results it builds a
 * summary sentence (an intent-specific lead-in and the top snippet cut to 200 characters),
 * key points from the titles of the top three, a confidence figure and a per-source count.
 * Confidence is a real; the rounding to two decimals is not modelled.
 */
module Synthesis {
  import opened Common
  import opened SearchExecutor
  import QueryProcessor
  import Agent
  import Metrics

  datatype SynthesisResult = SynthesisResult(
    summary: string,
    keyPoints: seq<string>,
    confidence: real,
    sourcesUsed: map<string, nat>,
    resultsSynthesized: nat,
    synthesisTimeMs: real,
    /** Absent from the empty synthesis. */
    synthesizedAt: Option<real>)

  /** How many of the ranked results are summarised. */
  const TopCount: nat := 5
  /** How many characters of the top snippet the summary quotes. */
  const SnippetLimit: nat := 200
  const Ellipsis: string := "..."
  const NoResultsSummary: string := "No results available for synthesis."
  const SnippetFallback: string := "Multiple sources provide information on this topic. See results for details."
  const KeyPointFallback: string := "See search results for detailed information"
  const EmptySummary: string := "No results available to synthesize."

  /** The opening of the summary, chosen by the query's intent. */
  function Lead(intent: QueryProcessor.Intent, query: string): string {
    if intent == QueryProcessor.Definition then "Based on search results for '" + query + "': "
    else if intent == QueryProcessor.Tutorial then "Here's information on " + query + ": "
    else "Regarding '" + query + "': "
  }

  /** What follows the lead: the first 200 characters of the snippet, then an ellipsis
      when the snippet is longer, or the fallback sentence for an empty snippet. */
  function SnippetPart(snippet: string): string {
    if snippet != [] then
      PyPrefix(snippet, SnippetLimit as int) + (if |snippet| > SnippetLimit then Ellipsis else "")
    else SnippetFallback
  }

  /** An empty snippet gives the fallback, a short one is quoted whole, and a long one is
      cut to exactly 200 characters followed by the ellipsis. */
  lemma SnippetPartShape(snippet: string)
    ensures snippet == [] ==> SnippetPart(snippet) == SnippetFallback
    ensures snippet != [] && |snippet| <= SnippetLimit ==> SnippetPart(snippet) == snippet
    ensures |snippet| > SnippetLimit ==>
      && |SnippetPart(snippet)| == SnippetLimit + |Ellipsis|
      && SnippetPart(snippet)[..SnippetLimit] == snippet[..SnippetLimit]
      && SnippetPart(snippet)[SnippetLimit..] == Ellipsis
    ensures |SnippetPart(snippet)| <= SnippetLimit + |Ellipsis|
  {
  }

  /** `_generate_summary` on the top results. */
  function Summary(results: seq<SearchResult>, intent: QueryProcessor.Intent, query: string): string {
    if results == [] then NoResultsSummary
    else Lead(intent, query) + SnippetPart(results[0].snippet)
  }

  /** The summary of some results is the intent's lead followed by the snippet part of the
      top result; with no results it is the fixed sentence. */
  lemma SummaryShape(results: seq<SearchResult>, intent: QueryProcessor.Intent, query: string)
    ensures var s, lead := Summary(results, intent, query), Lead(intent, query);
      && (results == [] ==> s == NoResultsSummary)
      && (results != [] ==>
            && |lead| <= |s| && s[..|lead|] == lead
            && s[|lead|..] == SnippetPart(results[0].snippet)
            && |s| <= |lead| + SnippetLimit + |Ellipsis|)
  {
    if results != [] {
      var lead, part := Lead(intent, query), SnippetPart(results[0].snippet);
      SnippetPartShape(results[0].snippet);
      assert (lead + part)[..|lead|] == lead && (lead + part)[|lead|..] == part;
    }
  }

  /** The non-empty titles of `rs`, in order. */
  function Titles(rs: seq<SearchResult>): seq<string> {
    if rs == [] then []
    else Titles(rs[..|rs| - 1]) + (if rs[|rs| - 1].title != "" then [rs[|rs| - 1].title] else [])
  }

  /** Every title of `rs`, empty ones included, in result order. */
  function AllTitles(rs: seq<SearchResult>): (ts: seq<string>)
    ensures |ts| == |rs| && forall i :: 0 <= i < |rs| ==> ts[i] == rs[i].title
  {
    seq(|rs|, i requires 0 <= i < |rs| => rs[i].title)
  }

  /** How many results of `rs` have a non-empty title. */
  function TitledCount(rs: seq<SearchResult>): nat {
    if rs == [] then 0 else (if rs[0].title != "" then 1 else 0) + TitledCount(rs[1..])
  }

  /** The count read from the other end. */
  lemma {:induction false} TitledCountLast(rs: seq<SearchResult>)
    requires rs != []
    ensures TitledCount(rs) == TitledCount(rs[..|rs| - 1]) + (if rs[|rs| - 1].title != "" then 1 else 0)
  {
    if |rs| > 1 {
      TitledCountLast(rs[1..]);
      assert rs[1..][..|rs| - 2] == rs[..|rs| - 1][1..];
    }
  }

  /** The titles taken are non-empty, are no more than the results, include every
      non-empty title, and are nothing but titles of the results. */
  lemma {:induction false} TitlesShape(rs: seq<SearchResult>)
    ensures |Titles(rs)| <= |rs|
    ensures forall i :: 0 <= i < |Titles(rs)| ==> Titles(rs)[i] != ""
    ensures forall i :: 0 <= i < |rs| && rs[i].title != "" ==> rs[i].title in Titles(rs)
    ensures forall t :: t in Titles(rs) ==> exists i :: 0 <= i < |rs| && rs[i].title == t
  {
    if rs != [] {
      var init := rs[..|rs| - 1];
      TitlesShape(init);
      assert forall i :: 0 <= i < |rs| - 1 ==> rs[i] == init[i];
      forall t | t in Titles(init)
        ensures exists i :: 0 <= i < |rs| && rs[i].title == t
      {
        var i :| 0 <= i < |init| && init[i].title == t;
        assert rs[i].title == t;
      }
    }
  }

  lemma AllTitlesLast(rs: seq<SearchResult>)
    requires rs != []
    ensures AllTitles(rs) == AllTitles(rs[..|rs| - 1]) + [rs[|rs| - 1].title]
  {
  }

  /** The titles are taken in result order with repeats kept: a subsequence of all the
      titles with one entry per result whose title is non-empty. Together with
      `TitlesShape` this pins them down as exactly the non-empty titles. */
  lemma {:induction false} TitlesInOrder(rs: seq<SearchResult>)
    ensures IsSubsequence(Titles(rs), AllTitles(rs))
    ensures |Titles(rs)| == TitledCount(rs)
  {
    if rs != [] {
      var init, last := rs[..|rs| - 1], rs[|rs| - 1];
      TitlesInOrder(init);
      TitledCountLast(rs);
      AllTitlesLast(rs);
      if last.title != "" {
        assert Titles(rs) == Titles(init) + [last.title];
        SubsequenceAppend(Titles(init), AllTitles(init), last.title);
      } else {
        assert Titles(rs) == Titles(init) + [] == Titles(init);
        SubsequenceExtend(Titles(init), AllTitles(init), last.title);
      }
    }
  }

  /** `_extract_key_points`: the non-empty titles of the first three results, or the
      fallback sentence when there are none. */
  function KeyPoints(rs: seq<SearchResult>): seq<string> {
    var ts := Titles(PyPrefix(rs, 3));
    if ts == [] then [KeyPointFallback] else ts
  }

  /** There are one to three key points: the fallback alone when none of the first three
      results has a title, and otherwise exactly their non-empty titles, in result order,
      repeats kept. */
  lemma KeyPointsShape(rs: seq<SearchResult>)
    ensures 1 <= |KeyPoints(rs)| <= 3
    ensures (forall i :: 0 <= i < MinInt(3, |rs|) ==> rs[i].title == "") ==> KeyPoints(rs) == [KeyPointFallback]
    ensures (exists i :: 0 <= i < MinInt(3, |rs|) && rs[i].title != "") ==>
      && (forall k :: 0 <= k < |KeyPoints(rs)| ==> KeyPoints(rs)[k] != "")
      && (forall t :: t in KeyPoints(rs) ==> exists i :: 0 <= i < MinInt(3, |rs|) && rs[i].title == t)
      && (forall i :: 0 <= i < MinInt(3, |rs|) && rs[i].title != "" ==> rs[i].title in KeyPoints(rs))
      && KeyPoints(rs) == Titles(PyPrefix(rs, 3))
      && IsSubsequence(KeyPoints(rs), AllTitles(PyPrefix(rs, 3)))
      && |KeyPoints(rs)| == TitledCount(PyPrefix(rs, 3))
  {
    var top := PyPrefix(rs, 3);
    TitlesShape(top);
    TitlesInOrder(top);
    assert forall i :: 0 <= i < |top| ==> top[i] == rs[i];
    if Titles(top) != [] {
      assert Titles(top)[0] in Titles(top);
    }
  }

  /** The relevance scores of `rs`, in order. */
  function Scores(rs: seq<SearchResult>): (xs: seq<real>)
    ensures |xs| == |rs| && forall i :: 0 <= i < |rs| ==> xs[i] == rs[i].relevanceScore
  {
    seq(|rs|, i requires 0 <= i < |rs| => rs[i].relevanceScore)
  }

  /** The results scoring above 0.5. */
  function QualityCount(rs: seq<SearchResult>): (n: nat)
    ensures n <= |rs|
    ensures n == 0 <==> forall i :: 0 <= i < |rs| ==> rs[i].relevanceScore <= 0.5
  {
    if rs == [] then 0
    else
      assert forall i :: 1 <= i < |rs| ==> rs[i] == rs[1..][i - 1];
      (if rs[0].relevanceScore > 0.5 then 1 else 0) + QualityCount(rs[1..])
  }

  /** `_calculate_confidence`: 70% the mean score of the top three, 30% the number of
      results above 0.5 out of five, capped at 1. */
  function Confidence(rs: seq<SearchResult>): (c: real)
    ensures rs == [] ==> c == 0.0
  {
    if rs == [] then 0.0
    else
      var top := PyPrefix(rs, 3);
      var avg := Metrics.Sum(Scores(top)) / |top| as real;
      var resultScore := MinReal(QualityCount(rs) as real / 5.0, 1.0);
      avg * 0.7 + resultScore * 0.3
  }

  /** With every score in [0, 1] the confidence is in [0, 1]; with none above 0.5 it
      comes from the mean alone and stays at most 0.7 times the top score bound. */
  lemma ConfidenceBounds(rs: seq<SearchResult>, hi: real)
    requires 0.0 <= hi <= 1.0
    requires forall i :: 0 <= i < |rs| ==> 0.0 <= rs[i].relevanceScore <= hi
    ensures 0.0 <= Confidence(rs) <= 1.0
    ensures QualityCount(rs) == 0 ==> Confidence(rs) <= 0.7 * hi
  {
    if rs != [] {
      var top := PyPrefix(rs, 3);
      Metrics.MeanBounds(Scores(top), 0.0, hi);
    }
  }

  /** Five or more results above 0.5 give the count term its full weight. */
  lemma ConfidenceCountSaturates(rs: seq<SearchResult>)
    requires QualityCount(rs) >= 5
    ensures Confidence(rs) == Metrics.Sum(Scores(rs[..3])) / 3.0 * 0.7 + 0.3
  {
    assert PyPrefix(rs, 3) == rs[..3];
  }

  /** The key under which `_get_sources_breakdown` counts a result. */
  function SourceName(r: SearchResult): string {
    if r.source.Some? then r.source.value else "unknown"
  }

  /** How many results are counted under `name`. */
  function CountOf(rs: seq<SearchResult>, name: string): nat {
    if rs == [] then 0
    else CountOf(rs[..|rs| - 1], name) + (if SourceName(rs[|rs| - 1]) == name then 1 else 0)
  }

  /** The map `_get_sources_breakdown` builds, one result at a time. */
  function Breakdown(rs: seq<SearchResult>): map<string, nat> {
    if rs == [] then map[]
    else
      var m := Breakdown(rs[..|rs| - 1]);
      var name := SourceName(rs[|rs| - 1]);
      m[name := (if name in m then m[name] else 0) + 1]
  }

  /** The breakdown counts every source name it holds exactly, and holds every name some
      result is counted under. */
  lemma {:induction false} BreakdownCounts(rs: seq<SearchResult>)
    ensures forall name :: name in Breakdown(rs) ==> Breakdown(rs)[name] == CountOf(rs, name) && CountOf(rs, name) > 0
    ensures forall name :: name !in Breakdown(rs) ==> CountOf(rs, name) == 0
    ensures forall i :: 0 <= i < |rs| ==> SourceName(rs[i]) in Breakdown(rs)
  {
    if rs != [] {
      var init := rs[..|rs| - 1];
      BreakdownCounts(init);
      assert forall i :: 0 <= i < |rs| - 1 ==> rs[i] == init[i];
    }
  }

  ghost function Pick(s: set<string>): string
    requires s != {}
  {
    var x :| x in s; x
  }

  /** The sum of a map's values. */
  ghost function Total(m: map<string, nat>): nat
    decreases |m.Keys|
  {
    if m.Keys == {} then 0
    else
      var k := Pick(m.Keys);
      assert (m - {k}).Keys == m.Keys - {k};
      m[k] + Total(m - {k})
  }

  /** The total does not depend on which key is taken out first. */
  lemma {:induction false} TotalRemove(m: map<string, nat>, k: string)
    requires k in m
    ensures Total(m) == m[k] + Total(m - {k})
    decreases |m.Keys|
  {
    var j := Pick(m.Keys);
    if j != k {
      var mj, mk := m - {j}, m - {k};
      assert mj.Keys == m.Keys - {j} && mk.Keys == m.Keys - {k};
      assert Total(m) == m[j] + Total(mj);
      assert k in mj && mj[k] == m[k] && j in mk && mk[j] == m[j];
      TotalRemove(mj, k);
      TotalRemove(mk, j);
      assert mj - {k} == mk - {j};
    }
  }

  /** The breakdown's counts add up to the number of results counted. */
  lemma {:induction false} BreakdownTotal(rs: seq<SearchResult>)
    ensures Total(Breakdown(rs)) == |rs|
  {
    if rs != [] {
      var m := Breakdown(rs[..|rs| - 1]);
      var name := SourceName(rs[|rs| - 1]);
      var m' := m[name := (if name in m then m[name] else 0) + 1];
      BreakdownTotal(rs[..|rs| - 1]);
      TotalRemove(m', name);
      assert m' - {name} == m - {name};
      if name in m {
        TotalRemove(m, name);
      } else {
        assert m - {name} == m;
      }
    }
  }

  /** `_empty_synthesis`. */
  function EmptySynthesis(): (s: SynthesisResult)
    ensures s.summary == EmptySummary && s.keyPoints == [] && s.confidence == 0.0
    ensures s.sourcesUsed == map[] && s.resultsSynthesized == 0 && s.synthesisTimeMs == 0.0
    ensures s.synthesizedAt == None
  {
    SynthesisResult(EmptySummary, [], 0.0, map[], 0, 0.0, None)
  }

  /** The record `synthesize` returns for non-empty input. */
  function Synthesized(rs: seq<SearchResult>, pq: QueryProcessor.ProcessedQuery,
                       synthesisTimeMs: real, synthesizedAt: real): SynthesisResult
  {
    var top := PyPrefix(rs, TopCount as int);
    SynthesisResult(
      Summary(top, pq.intent, pq.originalQuery),
      KeyPoints(top),
      Confidence(rs),
      Breakdown(top),
      |top|,
      synthesisTimeMs,
      Some(synthesizedAt))
  }

  /** A synthesis covers min(5, N) results, its source counts add up to that number, it
      has one to three key points, and its summary opens with the lead for the intent. */
  lemma SynthesizedShape(rs: seq<SearchResult>, pq: QueryProcessor.ProcessedQuery, ms: real, at: real)
    requires rs != []
    ensures var s := Synthesized(rs, pq, ms, at);
      && s.resultsSynthesized == MinInt(TopCount, |rs|)
      && Total(s.sourcesUsed) == s.resultsSynthesized
      && 1 <= |s.keyPoints| <= 3
      && s.summary[..|Lead(pq.intent, pq.originalQuery)|] == Lead(pq.intent, pq.originalQuery)
      && s.summary[|Lead(pq.intent, pq.originalQuery)|..] == SnippetPart(rs[0].snippet)
  {
    var top := PyPrefix(rs, TopCount as int);
    BreakdownTotal(top);
    KeyPointsShape(top);
    SummaryShape(top, pq.intent, pq.originalQuery);
    assert top[0] == rs[0];
  }

  class SynthesisAgent {
    const base: Agent.BaseAgent

    constructor (metrics: Metrics.MetricsCollector?)
      ensures fresh(base) && base.name == "SynthesisAgent" && base.metrics == metrics
      ensures base.status == Agent.Initializing && base.tasksCompleted == 0
    {
      base := new Agent.BaseAgent("SynthesisAgent", metrics);
    }

    /** The summary assembled piece by piece. */
    static method GenerateSummary(results: seq<SearchResult>, intent: QueryProcessor.Intent, query: string)
      returns (summary: string)
      ensures summary == Summary(results, intent, query)
    {
      if results == [] {
        return NoResultsSummary;
      }
      summary := Lead(intent, query);
      var snippet := results[0].snippet;
      if snippet != [] {
        summary := summary + PyPrefix(snippet, SnippetLimit as int);
        if |snippet| > SnippetLimit {
          summary := summary + Ellipsis;
        }
      } else {
        summary := summary + SnippetFallback;
      }
    }

    /** The key-point loop over the first three results. */
    static method ExtractKeyPoints(results: seq<SearchResult>) returns (keyPoints: seq<string>)
      ensures keyPoints == KeyPoints(results)
    {
      var top := PyPrefix(results, 3);
      keyPoints := [];
      var i := 0;
      while i < |top|
        invariant 0 <= i <= |top|
        invariant keyPoints == Titles(top[..i])
      {
        var title := top[i].title;
        assert top[..i + 1][..i] == top[..i];
        TitlesShape(top[..i]);
        if title != "" && |keyPoints| < 5 {
          keyPoints := keyPoints + [title];
        }
        i := i + 1;
      }
      assert top[..i] == top;
      if keyPoints == [] {
        keyPoints := [KeyPointFallback];
      }
    }

    /** The counting loop of `_get_sources_breakdown`. */
    static method GetSourcesBreakdown(results: seq<SearchResult>) returns (sources: map<string, nat>)
      ensures sources == Breakdown(results)
    {
      sources := map[];
      var i := 0;
      while i < |results|
        invariant 0 <= i <= |results|
        invariant sources == Breakdown(results[..i])
      {
        assert results[..i + 1][..i] == results[..i];
        var source := SourceName(results[i]);
        sources := sources[source := (if source in sources then sources[source] else 0) + 1];
        i := i + 1;
      }
      assert results[..i] == results;
    }

    /** `synthesize` between the clock readings `t0` and `t1`, stamped `synthesizedAt`;
        `fault` stands for an exception raised before `end_task`. On empty input the agent
        returns the empty synthesis without calling `end_task`, so it stays working. */
    method Synthesize(results: seq<SearchResult>, pq: QueryProcessor.ProcessedQuery,
                      t0: real, t1: real, synthesizedAt: real, fault: Option<string>)
      returns (r: Result<SynthesisResult>)
      modifies base, base.metrics
      ensures results == [] ==> r == Ok(EmptySynthesis()) && Agent.LeftTask(base, t0, Agent.Working)
      ensures results != [] && fault.None? ==>
        r == Ok(Synthesized(results, pq, (t1 - t0) * 1000.0, synthesizedAt)) && Agent.CompletedTask(base, t0, t1)
      ensures results != [] && fault.Some? ==>
        r == Err("Synthesis failed: " + fault.value) && Agent.LeftTask(base, t0, Agent.Error)
    {
      var startTime := base.StartTask(t0);
      if results == [] {
        return Ok(EmptySynthesis());
      }
      if fault.Some? {
        base.FailTask();
        return Err("Synthesis failed: " + fault.value);
      }
      r := Compose(results, pq, t0, t1, synthesizedAt);
    }

    /** The body of `synthesize` past its guards: the parts of the synthesis, then `end_task`. */
    method Compose(results: seq<SearchResult>, pq: QueryProcessor.ProcessedQuery,
                   startTime: real, t1: real, synthesizedAt: real)
      returns (r: Result<SynthesisResult>)
      modifies base, base.metrics
      ensures r == Ok(Synthesized(results, pq, (t1 - startTime) * 1000.0, synthesizedAt))
      ensures Agent.CompletedTask(base, startTime, t1)
    {
      var summary, keyPoints, confidence, sourcesUsed, count := Parts(results, pq);
      var executionTime := base.EndTask(startTime, t1);
      r := Ok(SynthesisResult(summary, keyPoints, confidence, sourcesUsed, count, executionTime, Some(synthesizedAt)));
    }

    /** The summary, key points, confidence and source counts of a synthesis, computed
        from the first five results (the confidence from all of them). */
    static method Parts(results: seq<SearchResult>, pq: QueryProcessor.ProcessedQuery)
      returns (summary: string, keyPoints: seq<string>, confidence: real, sourcesUsed: map<string, nat>, count: nat)
      ensures var top := PyPrefix(results, TopCount as int);
        && summary == Summary(top, pq.intent, pq.originalQuery) && keyPoints == KeyPoints(top)
        && confidence == Confidence(results) && sourcesUsed == Breakdown(top) && count == |top|
    {
      var top := PyPrefix(results, TopCount as int);
      summary := GenerateSummary(top, pq.intent, pq.originalQuery);
      keyPoints := ExtractKeyPoints(top);
      confidence := Confidence(results);
      sourcesUsed := GetSourcesBreakdown(top);
      count := |top|;
    }
  }
}
