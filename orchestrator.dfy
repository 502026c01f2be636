/**
 * The search orchestrator (agents/orchestrator.py): counts the search, records it in the
 * metrics collector, then runs the four agents in sequence: query processing, search,
 * analysis (only when enabled and something was found) and synthesis (only when enabled
 * and there are results). A failure in any stage is counted and re-raised with a prefix.
 *
 * The awaits are sequential calls. The clock readings of one execution are gathered in a
 * `Clock` record, and an exception inside one stage is the explicit `Fault` parameter.
 */
module Orchestrator {
  import opened Common
  import QueryProcessor
  import SearchExecutor
  import Analysis
  import Synthesis
  import Agent
  import Metrics

  datatype Stage = ProcessStage | SearchStage | AnalysisStage | SynthesisStage

  /** An exception raised inside the try-block of one stage's agent. */
  datatype Fault = Fault(stage: Stage, detail: string)

  /** The arguments of `execute_search`. */
  datatype Request = Request(
    query: string,
    maxResults: int,
    enableAnalysis: bool,
    includeSynthesis: bool,
    sources: Option<seq<string>>)

  /** The clock readings one execution takes. */
  datatype Clock = Clock(
    start: real, recorded: real,
    processStart: real, processEnd: real,
    searchStart: real, searchEnd: real, retrievedAt: real,
    analysisStart: real, analysisEnd: real,
    synthesisStart: real, synthesisEnd: real, synthesizedAt: real,
    finish: real, timestamp: real)

  /** The `agent_metrics` part of the response. */
  datatype RunMetrics = RunMetrics(
    queryProcessingMs: real,
    searchExecutionMs: real,
    analysisMs: real,
    synthesisMs: real,
    totalTimeMs: real,
    agentsUsed: seq<string>,
    cacheHit: bool)

  datatype Response = Response(
    query: string,
    results: seq<SearchExecutor.SearchResult>,
    synthesis: Option<Synthesis.SynthesisResult>,
    agentMetrics: RunMetrics,
    timestamp: real)

  /** What `get_status` reports. */
  datatype OrchestratorStatus = OrchestratorStatus(
    status: string,
    totalSearches: nat,
    successfulSearches: nat,
    failedSearches: nat,
    successRate: real)

  const FailurePrefix: string := "Orchestrator execution failed: "

  /** The detail of the fault, when it strikes `stage`. */
  function FaultAt(fault: Option<Fault>, stage: Stage): (d: Option<string>)
    ensures d.Some? <==> fault.Some? && fault.value.stage == stage
  {
    if fault.Some? && fault.value.stage == stage then Some(fault.value.detail) else None
  }

  /** `_get_agents_used`. */
  function AgentsUsed(enableAnalysis: bool, includeSynthesis: bool): (agents: seq<string>)
    ensures 2 <= |agents| <= 4 && agents[..2] == ["QueryProcessor", "SearchExecutor"]
    ensures "AnalysisAgent" in agents <==> enableAnalysis
    ensures "SynthesisAgent" in agents <==> includeSynthesis
    ensures enableAnalysis ==> agents[2] == "AnalysisAgent"
    ensures |agents| == 2 + (if enableAnalysis then 1 else 0) + (if includeSynthesis then 1 else 0)
  {
    ["QueryProcessor", "SearchExecutor"]
    + (if enableAnalysis then ["AnalysisAgent"] else [])
    + (if includeSynthesis then ["SynthesisAgent"] else [])
  }

  /** Successful searches as a percentage of all, 0 before the first search. */
  function SuccessRate(successful: nat, total: nat): (r: real)
    ensures total == 0 ==> r == 0.0
    ensures total > 0 ==> r * total as real == successful as real * 100.0
    ensures successful <= total ==> 0.0 <= r <= 100.0
  {
    if total == 0 then 0.0
    else if successful <= total then
      Metrics.DivideBounds(successful as real, total as real, 0.0, 1.0);
      successful as real / total as real * 100.0
    else successful as real / total as real * 100.0
  }

  /** The source adapters and their availability, as the executor sees them. */
  datatype Sources = Sources(
    duckduckgoAvailable: bool,
    wikipediaAvailable: bool,
    duckduckgo: (string, int) -> SearchExecutor.SourceOutcome,
    wikipedia: (string, int) -> SearchExecutor.SourceOutcome)

  /** The processed query of the first stage. */
  function ProcessedOf(req: Request, c: Clock): QueryProcessor.ProcessedQuery {
    QueryProcessor.Processed(req.query, (c.processEnd - c.processStart) * 1000.0)
  }

  /** The results of the search stage, for the processed query `pq`. */
  function RetrievedFrom(req: Request, src: Sources, pq: QueryProcessor.ProcessedQuery, c: Clock)
    : seq<SearchExecutor.SearchResult>
  {
    SearchExecutor.Retrieved(pq.normalizedQuery, req.maxResults, req.sources,
                             src.duckduckgoAvailable, src.wikipediaAvailable, src.duckduckgo, src.wikipedia,
                             c.retrievedAt, (c.searchEnd - c.searchStart) * 1000.0)
  }

  /** The response assembled at the end of a successful run. */
  function Assembled(req: Request, pq: QueryProcessor.ProcessedQuery, retrieved: seq<SearchExecutor.SearchResult>,
                     analyzed: seq<SearchExecutor.SearchResult>, synthesis: Option<Synthesis.SynthesisResult>,
                     c: Clock): (resp: Response)
    ensures resp.query == req.query && resp.results == analyzed && resp.synthesis == synthesis
    ensures resp.agentMetrics.agentsUsed == AgentsUsed(req.enableAnalysis, req.includeSynthesis)
    ensures resp.agentMetrics.analysisMs == 0.0 && !resp.agentMetrics.cacheHit
  {
    Response(
      req.query,
      analyzed,
      synthesis,
      RunMetrics(
        pq.processingTimeMs,
        if retrieved != [] then (c.searchEnd - c.searchStart) * 1000.0 else 0.0,
        0.0,
        if synthesis.Some? then synthesis.value.synthesisTimeMs else 0.0,
        (c.finish - c.start) * 1000.0,
        AgentsUsed(req.enableAnalysis, req.includeSynthesis),
        false),
      c.timestamp)
  }

  /** The analysis stage: it runs only when enabled and something was found, and
      otherwise passes the results through. */
  function AnalysisOutcome(enabled: bool, fault: Option<string>, pq: QueryProcessor.ProcessedQuery,
                           retrieved: seq<SearchExecutor.SearchResult>): Result<seq<SearchExecutor.SearchResult>>
  {
    if enabled && retrieved != [] then
      if fault.Some? then Err("Analysis failed: " + fault.value)
      else Ok(Analysis.Analyzed(retrieved, pq.normalizedQuery, pq.keywords))
    else Ok(retrieved)
  }

  /** The synthesis stage: it runs only when enabled and there are results. */
  function SynthesisOutcome(enabled: bool, fault: Option<string>, pq: QueryProcessor.ProcessedQuery,
                            analyzed: seq<SearchExecutor.SearchResult>, synthesisTimeMs: real, synthesizedAt: real)
    : Result<Option<Synthesis.SynthesisResult>>
  {
    if enabled && analyzed != [] then
      if fault.Some? then Err("Synthesis failed: " + fault.value)
      else Ok(Some(Synthesis.Synthesized(analyzed, pq, synthesisTimeMs, synthesizedAt)))
    else Ok(None)
  }

  /** The response, or the failure of the synthesis stage whose outcome is `synthesis`. */
  function Finished(req: Request, pq: QueryProcessor.ProcessedQuery, retrieved: seq<SearchExecutor.SearchResult>,
                    analyzed: seq<SearchExecutor.SearchResult>, synthesis: Result<Option<Synthesis.SynthesisResult>>,
                    c: Clock): Result<Response>
  {
    if synthesis.Err? then Err(FailurePrefix + synthesis.message)
    else Ok(Assembled(req, pq, retrieved, analyzed, synthesis.value, c))
  }

  /** The analysis and synthesis stages, on the processed query and the retrieved list. */
  function LaterStages(req: Request, fault: Option<Fault>, pq: QueryProcessor.ProcessedQuery,
                       retrieved: seq<SearchExecutor.SearchResult>, c: Clock): Result<Response>
  {
    var analysis := AnalysisOutcome(req.enableAnalysis, FaultAt(fault, AnalysisStage), pq, retrieved);
    if analysis.Err? then Err(FailurePrefix + analysis.message)
    else Finished(req, pq, retrieved, analysis.value, SynthesisOutcomeAt(req, fault, pq, analysis.value, c), c)
  }

  /** The synthesis stage of one run, on the analysed list. */
  function SynthesisOutcomeAt(req: Request, fault: Option<Fault>, pq: QueryProcessor.ProcessedQuery,
                              analyzed: seq<SearchExecutor.SearchResult>, c: Clock)
    : Result<Option<Synthesis.SynthesisResult>>
  {
    SynthesisOutcome(req.includeSynthesis, FaultAt(fault, SynthesisStage), pq, analyzed,
                     (c.synthesisEnd - c.synthesisStart) * 1000.0, c.synthesizedAt)
  }

  /** `LaterStages` when the analysis stage fails. */
  lemma LaterAnalysisFails(req: Request, fault: Option<Fault>, pq: QueryProcessor.ProcessedQuery,
                           retrieved: seq<SearchExecutor.SearchResult>, c: Clock,
                           analysis: Result<seq<SearchExecutor.SearchResult>>)
    requires analysis == AnalysisOutcome(req.enableAnalysis, FaultAt(fault, AnalysisStage), pq, retrieved)
    requires analysis.Err?
    ensures LaterStages(req, fault, pq, retrieved, c) == Err(FailurePrefix + analysis.message)
  {
  }

  /** `LaterStages` when the analysis stage succeeds. */
  lemma LaterPastAnalysis(req: Request, fault: Option<Fault>, pq: QueryProcessor.ProcessedQuery,
                          retrieved: seq<SearchExecutor.SearchResult>, c: Clock,
                          analysis: Result<seq<SearchExecutor.SearchResult>>)
    requires analysis == AnalysisOutcome(req.enableAnalysis, FaultAt(fault, AnalysisStage), pq, retrieved)
    requires analysis.Ok?
    ensures LaterStages(req, fault, pq, retrieved, c)
      == Finished(req, pq, retrieved, analysis.value, SynthesisOutcomeAt(req, fault, pq, analysis.value, c), c)
  {
  }

  /** The search stage and the stages after it, on the processed query `pq`. */
  function AfterProcessing(req: Request, fault: Option<Fault>, src: Sources, pq: QueryProcessor.ProcessedQuery,
                           c: Clock): Result<Response>
  {
    if FaultAt(fault, SearchStage).Some? then
      Err(FailurePrefix + ("Search execution failed: " + FaultAt(fault, SearchStage).value))
    else LaterStages(req, fault, pq, RetrievedFrom(req, src, pq, c), c)
  }

  /** What `execute_search` returns or raises, stage by stage. */
  function Run(req: Request, fault: Option<Fault>, src: Sources, c: Clock): Result<Response> {
    if FaultAt(fault, ProcessStage).Some? then
      Err(FailurePrefix + ("Query processing failed: " + FaultAt(fault, ProcessStage).value))
    else AfterProcessing(req, fault, src, ProcessedOf(req, c), c)
  }

  /** After the search, a successful run returns the retrieved results unchanged when
      analysis is off or nothing was found, and their analysis otherwise; it holds a
      synthesis exactly when one was asked for and there are results. */
  lemma {:induction false} LaterStagesGating(req: Request, fault: Option<Fault>, pq: QueryProcessor.ProcessedQuery,
                                             retrieved: seq<SearchExecutor.SearchResult>, c: Clock)
    requires LaterStages(req, fault, pq, retrieved, c).Ok?
    ensures var resp := LaterStages(req, fault, pq, retrieved, c).value;
      && resp.query == req.query
      && (!req.enableAnalysis || retrieved == [] ==> resp.results == retrieved)
      && (req.enableAnalysis && retrieved != [] ==>
            resp.results == Analysis.Analyzed(retrieved, pq.normalizedQuery, pq.keywords))
      && |resp.results| == |retrieved|
      && (resp.synthesis.Some? <==> req.includeSynthesis && resp.results != [])
      && resp.agentMetrics.agentsUsed == AgentsUsed(req.enableAnalysis, req.includeSynthesis)
  {
    Analysis.AnalyzedProperties(retrieved, pq.normalizedQuery, pq.keywords, 0.0);
  }

  /** `Run` when query processing fails. */
  lemma RunProcessFails(req: Request, fault: Option<Fault>, src: Sources, c: Clock, d: string)
    requires FaultAt(fault, ProcessStage) == Some(d)
    ensures Run(req, fault, src, c) == Err(FailurePrefix + ("Query processing failed: " + d))
  {
  }

  /** `Run` when query processing succeeds. */
  lemma RunPastProcessing(req: Request, fault: Option<Fault>, src: Sources, c: Clock, pq: QueryProcessor.ProcessedQuery)
    requires FaultAt(fault, ProcessStage).None? && pq == ProcessedOf(req, c)
    ensures Run(req, fault, src, c) == AfterProcessing(req, fault, src, pq, c)
  {
  }

  /** `AfterProcessing` when the search fails. */
  lemma SearchFails(req: Request, fault: Option<Fault>, src: Sources, pq: QueryProcessor.ProcessedQuery, c: Clock,
                    d: string)
    requires FaultAt(fault, SearchStage) == Some(d)
    ensures AfterProcessing(req, fault, src, pq, c) == Err(FailurePrefix + ("Search execution failed: " + d))
  {
  }

  /** `AfterProcessing` when the search succeeds. */
  lemma PastSearch(req: Request, fault: Option<Fault>, src: Sources, pq: QueryProcessor.ProcessedQuery, c: Clock,
                   retrieved: seq<SearchExecutor.SearchResult>)
    requires FaultAt(fault, SearchStage).None? && retrieved == RetrievedFrom(req, src, pq, c)
    ensures AfterProcessing(req, fault, src, pq, c) == LaterStages(req, fault, pq, retrieved, c)
  {
  }

  /** A successful run answers the query it was given and never returns more results than
      the limit. */
  lemma RunBounded(req: Request, fault: Option<Fault>, src: Sources, c: Clock)
    requires Run(req, fault, src, c).Ok?
    ensures Run(req, fault, src, c).value.query == req.query
    ensures req.maxResults >= 0 ==> |Run(req, fault, src, c).value.results| <= req.maxResults
  {
    var pq := ProcessedOf(req, c);
    var retrieved := RetrievedFrom(req, src, pq, c);
    SearchExecutor.RetrievedShape(pq.normalizedQuery, req.maxResults, req.sources,
                                  src.duckduckgoAvailable, src.wikipediaAvailable, src.duckduckgo, src.wikipedia,
                                  c.retrievedAt, (c.searchEnd - c.searchStart) * 1000.0);
    LaterStagesGating(req, fault, pq, retrieved, c);
  }

  /** A fault in query processing or search always fails the run, with the stage's own
      message behind the orchestrator's prefix. */
  lemma RunEarlyFailures(req: Request, detail: string, src: Sources, c: Clock)
    ensures Run(req, Some(Fault(ProcessStage, detail)), src, c)
      == Err(FailurePrefix + ("Query processing failed: " + detail))
    ensures Run(req, Some(Fault(SearchStage, detail)), src, c)
      == Err(FailurePrefix + ("Search execution failed: " + detail))
  {
  }

  /** A fault in analysis fails the run exactly when analysis runs. */
  lemma {:induction false} AnalysisFailure(req: Request, detail: string, pq: QueryProcessor.ProcessedQuery,
                                           retrieved: seq<SearchExecutor.SearchResult>, c: Clock)
    ensures req.enableAnalysis && retrieved != [] ==>
      LaterStages(req, Some(Fault(AnalysisStage, detail)), pq, retrieved, c) == Err(FailurePrefix + ("Analysis failed: " + detail))
    ensures !req.enableAnalysis || retrieved == [] ==>
      LaterStages(req, Some(Fault(AnalysisStage, detail)), pq, retrieved, c) == LaterStages(req, None, pq, retrieved, c)
  {
  }

  /** A fault in synthesis fails the run exactly when synthesis runs. */
  lemma {:induction false} SynthesisFailure(req: Request, detail: string, pq: QueryProcessor.ProcessedQuery,
                                            retrieved: seq<SearchExecutor.SearchResult>, c: Clock)
    ensures req.includeSynthesis && retrieved != [] ==>
      LaterStages(req, Some(Fault(SynthesisStage, detail)), pq, retrieved, c) == Err(FailurePrefix + ("Synthesis failed: " + detail))
    ensures !req.includeSynthesis || retrieved == [] ==>
      LaterStages(req, Some(Fault(SynthesisStage, detail)), pq, retrieved, c) == LaterStages(req, None, pq, retrieved, c)
  {
    Analysis.AnalyzedProperties(retrieved, pq.normalizedQuery, pq.keywords, 0.0);
  }

  /** With no source both named and available, a run that gets past the search succeeds
      with no results and no synthesis, whatever the other flags say. */
  lemma RunWithoutSources(req: Request, fault: Option<Fault>, src: Sources, c: Clock)
    requires var names := if req.sources.Some? then req.sources.value else SearchExecutor.DefaultSources;
      !("duckduckgo" in names && src.duckduckgoAvailable) && !("wikipedia" in names && src.wikipediaAvailable)
    requires fault.None? || fault.value.stage == AnalysisStage || fault.value.stage == SynthesisStage
    ensures Run(req, fault, src, c).Ok?
    ensures Run(req, fault, src, c).value.results == [] && Run(req, fault, src, c).value.synthesis == None
  {
    var pq := ProcessedOf(req, c);
    SearchExecutor.NoSourceNoResults(pq.normalizedQuery, req.maxResults, req.sources,
                                     src.duckduckgoAvailable, src.wikipediaAvailable, src.duckduckgo, src.wikipedia,
                                     c.retrievedAt, (c.searchEnd - c.searchStart) * 1000.0);
  }

  /** The collector's search count, error count and search history are as they were:
      the agents only report executions into it. */
  twostate predicate SearchCountsKept(m: Metrics.MetricsCollector)
    reads m
  {
    && m.totalSearches == old(m.totalSearches)
    && m.errorCount == old(m.errorCount)
    && m.searchHistory == old(m.searchHistory)
  }

  class SearchOrchestrator {
    const queryProcessor: QueryProcessor.QueryProcessorAgent
    const searchExecutor: SearchExecutor.SearchExecutorAgent
    const analysisAgent: Analysis.AnalysisAgent
    const synthesisAgent: Synthesis.SynthesisAgent
    const metrics: Metrics.MetricsCollector
    var status: string
    var totalSearches: nat
    var successfulSearches: nat
    var failedSearches: nat

    /** Every search counted ended as exactly one success or one failure. */
    ghost predicate Valid()
      reads this, metrics
    {
      successfulSearches + failedSearches == totalSearches && metrics.Valid()
    }

    constructor (queryProcessor: QueryProcessor.QueryProcessorAgent, searchExecutor: SearchExecutor.SearchExecutorAgent,
                 analysisAgent: Analysis.AnalysisAgent, synthesisAgent: Synthesis.SynthesisAgent,
                 metrics: Metrics.MetricsCollector)
      requires metrics.Valid()
      ensures Valid()
      ensures this.queryProcessor == queryProcessor && this.searchExecutor == searchExecutor
      ensures this.analysisAgent == analysisAgent && this.synthesisAgent == synthesisAgent
      ensures this.metrics == metrics
      ensures status == "ready" && totalSearches == 0 && successfulSearches == 0 && failedSearches == 0
    {
      this.queryProcessor := queryProcessor;
      this.searchExecutor := searchExecutor;
      this.analysisAgent := analysisAgent;
      this.synthesisAgent := synthesisAgent;
      this.metrics := metrics;
      status := "ready";
      totalSearches := 0;
      successfulSearches := 0;
      failedSearches := 0;
    }

    /** The list of agents, appended one at a time. */
    static method GetAgentsUsed(enableAnalysis: bool, includeSynthesis: bool) returns (agents: seq<string>)
      ensures agents == AgentsUsed(enableAnalysis, includeSynthesis)
    {
      agents := ["QueryProcessor", "SearchExecutor"];
      if enableAnalysis {
        agents := agents + ["AnalysisAgent"];
      }
      if includeSynthesis {
        agents := agents + ["SynthesisAgent"];
      }
    }

    function GetStatus(): (s: OrchestratorStatus)
      reads this
      ensures s.status == status && s.totalSearches == totalSearches
      ensures s.successfulSearches == successfulSearches && s.failedSearches == failedSearches
      ensures s.successRate == SuccessRate(successfulSearches, totalSearches)
    {
      OrchestratorStatus(status, totalSearches, successfulSearches, failedSearches,
                         SuccessRate(successfulSearches, totalSearches))
    }

    /** `execute_search`: the outcome is `Run`'s; the search is counted once, as one
        success or one failure, and recorded in the collector (its count and its bounded
        history of queries), whose error count a failure leaves alone. */
    method ExecuteSearch(req: Request, fault: Option<Fault>, c: Clock,
                         duckduckgo: (string, int) -> SearchExecutor.SourceOutcome,
                         wikipedia: (string, int) -> SearchExecutor.SourceOutcome)
      returns (r: Result<Response>)
      requires Valid()
      modifies this, metrics
      modifies queryProcessor.base, queryProcessor.base.metrics
      modifies searchExecutor.base, searchExecutor.base.metrics
      modifies analysisAgent.base, analysisAgent.base.metrics
      modifies synthesisAgent.base, synthesisAgent.base.metrics
      ensures Valid()
      ensures r == Run(req, fault, Sources(searchExecutor.duckduckgoAvailable, searchExecutor.wikipediaAvailable,
                                           duckduckgo, wikipedia), c)
      ensures totalSearches == old(totalSearches) + 1
      ensures r.Ok? ==> successfulSearches == old(successfulSearches) + 1 && failedSearches == old(failedSearches)
      ensures r.Err? ==> failedSearches == old(failedSearches) + 1 && successfulSearches == old(successfulSearches)
      ensures status == old(status)
      ensures metrics.totalSearches == old(metrics.totalSearches) + 1
      ensures metrics.searchHistory ==
                Metrics.AppendBounded(old(metrics.searchHistory), Metrics.SearchRecord(req.query, c.recorded),
                                      Metrics.HistoryCapacity)
      ensures metrics.errorCount == old(metrics.errorCount)
    {
      Begin(req.query, c.recorded);
      r := Stages(req, fault, c, duckduckgo, wikipedia);
      Count(r.Ok?);
    }

    /** Counts the search here and in the collector. */
    method Begin(query: string, now: real)
      requires metrics.Valid()
      modifies this`totalSearches, metrics
      ensures metrics.Valid()
      ensures totalSearches == old(totalSearches) + 1
      ensures metrics.totalSearches == old(metrics.totalSearches) + 1
      ensures metrics.searchHistory ==
                Metrics.AppendBounded(old(metrics.searchHistory), Metrics.SearchRecord(query, now), Metrics.HistoryCapacity)
      ensures metrics.errorCount == old(metrics.errorCount)
    {
      totalSearches := totalSearches + 1;
      metrics.RecordSearch(query, now);
    }

    /** Counts the outcome as one success or one failure. */
    method Count(succeeded: bool)
      modifies this`successfulSearches, this`failedSearches
      ensures succeeded ==> successfulSearches == old(successfulSearches) + 1 && failedSearches == old(failedSearches)
      ensures !succeeded ==> failedSearches == old(failedSearches) + 1 && successfulSearches == old(successfulSearches)
    {
      if succeeded {
        successfulSearches := successfulSearches + 1;
      } else {
        failedSearches := failedSearches + 1;
      }
    }

    /** The body of the try-block after `record_search`: the four stages in order. */
    method Stages(req: Request, fault: Option<Fault>, c: Clock,
                  duckduckgo: (string, int) -> SearchExecutor.SourceOutcome,
                  wikipedia: (string, int) -> SearchExecutor.SourceOutcome)
      returns (r: Result<Response>)
      requires metrics.Valid()
      modifies queryProcessor.base, queryProcessor.base.metrics
      modifies searchExecutor.base, searchExecutor.base.metrics
      modifies analysisAgent.base, analysisAgent.base.metrics
      modifies synthesisAgent.base, synthesisAgent.base.metrics
      ensures metrics.Valid()
      ensures r == Run(req, fault, Sources(searchExecutor.duckduckgoAvailable, searchExecutor.wikipediaAvailable,
                                           duckduckgo, wikipedia), c)
      ensures SearchCountsKept(metrics)
    {
      ghost var src := Sources(searchExecutor.duckduckgoAvailable, searchExecutor.wikipediaAvailable, duckduckgo, wikipedia);
      var processed := ProcessStep(req, c, FaultAt(fault, ProcessStage));
      if processed.Err? {
        RunProcessFails(req, fault, src, c, FaultAt(fault, ProcessStage).value);
        return Err(FailurePrefix + processed.message);
      }
      RunPastProcessing(req, fault, src, c, processed.value);
      r := Searched(req, fault, c, processed.value, duckduckgo, wikipedia);
    }

    /** The search, then the later stages. */
    method Searched(req: Request, fault: Option<Fault>, c: Clock, pq: QueryProcessor.ProcessedQuery,
                    duckduckgo: (string, int) -> SearchExecutor.SourceOutcome,
                    wikipedia: (string, int) -> SearchExecutor.SourceOutcome)
      returns (r: Result<Response>)
      modifies searchExecutor.base, searchExecutor.base.metrics
      modifies analysisAgent.base, analysisAgent.base.metrics
      modifies synthesisAgent.base, synthesisAgent.base.metrics
      ensures r == AfterProcessing(req, fault, Sources(searchExecutor.duckduckgoAvailable, searchExecutor.wikipediaAvailable,
                                                       duckduckgo, wikipedia), pq, c)
      ensures SearchCountsKept(metrics)
    {
      ghost var src := Sources(searchExecutor.duckduckgoAvailable, searchExecutor.wikipediaAvailable, duckduckgo, wikipedia);
      var searched := SearchStep(req, pq, c, duckduckgo, wikipedia, FaultAt(fault, SearchStage));
      if searched.Err? {
        SearchFails(req, fault, src, pq, c, FaultAt(fault, SearchStage).value);
        return Err(FailurePrefix + searched.message);
      }
      PastSearch(req, fault, src, pq, c, searched.value);
      r := Later(req, fault, pq, searched.value, c);
    }

    /** Analysis, when enabled and something was found, then the rest. */
    method Later(req: Request, fault: Option<Fault>, pq: QueryProcessor.ProcessedQuery,
                 searchResults: seq<SearchExecutor.SearchResult>, c: Clock)
      returns (r: Result<Response>)
      modifies analysisAgent.base, analysisAgent.base.metrics
      modifies synthesisAgent.base, synthesisAgent.base.metrics
      ensures r == LaterStages(req, fault, pq, searchResults, c)
      ensures SearchCountsKept(metrics)
    {
      var analyzed := AnalysisStep(req.enableAnalysis, FaultAt(fault, AnalysisStage), pq, searchResults,
                                   c.analysisStart, c.analysisEnd);
      if analyzed.Err? {
        LaterAnalysisFails(req, fault, pq, searchResults, c, analyzed);
        return Err(FailurePrefix + analyzed.message);
      }
      LaterPastAnalysis(req, fault, pq, searchResults, c, analyzed);
      r := Finish(req, fault, pq, searchResults, analyzed.value, c);
    }

    /** Synthesis, when enabled and there are results, then the response. */
    method Finish(req: Request, fault: Option<Fault>, pq: QueryProcessor.ProcessedQuery,
                  searchResults: seq<SearchExecutor.SearchResult>, analyzedResults: seq<SearchExecutor.SearchResult>,
                  c: Clock)
      returns (r: Result<Response>)
      modifies synthesisAgent.base, synthesisAgent.base.metrics
      ensures r == Finished(req, pq, searchResults, analyzedResults,
                            SynthesisOutcomeAt(req, fault, pq, analyzedResults, c), c)
      ensures SearchCountsKept(metrics)
    {
      var synthesized := SynthesisStep(req, fault, pq, analyzedResults, c);
      if synthesized.Err? {
        return Err(FailurePrefix + synthesized.message);
      }
      var response := Respond(req, pq, searchResults, analyzedResults, synthesized.value, c);
      r := Ok(response);
    }

    /** The response record: the query, the final results, the synthesis and the run's metrics. */
    static method Respond(req: Request, pq: QueryProcessor.ProcessedQuery, searchResults: seq<SearchExecutor.SearchResult>,
                          analyzedResults: seq<SearchExecutor.SearchResult>, synthesis: Option<Synthesis.SynthesisResult>,
                          c: Clock)
      returns (response: Response)
      ensures response == Assembled(req, pq, searchResults, analyzedResults, synthesis, c)
    {
      var agentsUsed := GetAgentsUsed(req.enableAnalysis, req.includeSynthesis);
      var runMetrics := RunMetrics(
        pq.processingTimeMs,
        if searchResults != [] then (c.searchEnd - c.searchStart) * 1000.0 else 0.0,
        0.0,
        if synthesis.Some? then synthesis.value.synthesisTimeMs else 0.0,
        (c.finish - c.start) * 1000.0,
        agentsUsed,
        false);
      response := Response(req.query, analyzedResults, synthesis, runMetrics, c.timestamp);
    }

    /** The query processor's part. */
    method ProcessStep(req: Request, c: Clock, fault: Option<string>) returns (r: Result<QueryProcessor.ProcessedQuery>)
      modifies queryProcessor.base, queryProcessor.base.metrics
      ensures fault.Some? ==> r == Err("Query processing failed: " + fault.value)
      ensures fault.None? ==> r == Ok(ProcessedOf(req, c))
      ensures SearchCountsKept(metrics)
    {
      r := queryProcessor.Process(req.query, c.processStart, c.processEnd, fault);
    }

    /** The search executor's part. */
    method SearchStep(req: Request, pq: QueryProcessor.ProcessedQuery, c: Clock,
                      duckduckgo: (string, int) -> SearchExecutor.SourceOutcome,
                      wikipedia: (string, int) -> SearchExecutor.SourceOutcome,
                      fault: Option<string>)
      returns (r: Result<seq<SearchExecutor.SearchResult>>)
      modifies searchExecutor.base, searchExecutor.base.metrics
      ensures fault.Some? ==> r == Err("Search execution failed: " + fault.value)
      ensures fault.None? ==>
        r == Ok(RetrievedFrom(req, Sources(searchExecutor.duckduckgoAvailable, searchExecutor.wikipediaAvailable,
                                           duckduckgo, wikipedia), pq, c))
      ensures SearchCountsKept(metrics)
    {
      r := searchExecutor.SearchParallel(pq, req.maxResults, req.sources, duckduckgo, wikipedia,
                                         c.searchStart, c.searchEnd, c.retrievedAt, fault);
    }

    /** The analysis agent's part: the results go through an array the agent sorts in place. */
    method AnalysisStep(enabled: bool, fault: Option<string>, pq: QueryProcessor.ProcessedQuery,
                        searchResults: seq<SearchExecutor.SearchResult>, t0: real, t1: real)
      returns (r: Result<seq<SearchExecutor.SearchResult>>)
      modifies analysisAgent.base, analysisAgent.base.metrics
      ensures r == AnalysisOutcome(enabled, fault, pq, searchResults)
      ensures SearchCountsKept(metrics)
    {
      if !(enabled && searchResults != []) {
        return Ok(searchResults);
      }
      var a := new SearchExecutor.SearchResult[|searchResults|](i requires 0 <= i < |searchResults| => searchResults[i]);
      assert a[..] == searchResults;
      r := analysisAgent.Analyze(a, pq, t0, t1, fault);
    }

    /** The synthesis agent's part. */
    method SynthesisStep(req: Request, fault: Option<Fault>, pq: QueryProcessor.ProcessedQuery,
                         analyzedResults: seq<SearchExecutor.SearchResult>, c: Clock)
      returns (r: Result<Option<Synthesis.SynthesisResult>>)
      modifies synthesisAgent.base, synthesisAgent.base.metrics
      ensures r == SynthesisOutcomeAt(req, fault, pq, analyzedResults, c)
      ensures SearchCountsKept(metrics)
    {
      if !(req.includeSynthesis && analyzedResults != []) {
        return Ok(None);
      }
      var synthesized := synthesisAgent.Synthesize(analyzedResults, pq, c.synthesisStart, c.synthesisEnd, c.synthesizedAt,
                                                   FaultAt(fault, SynthesisStage));
      if synthesized.Err? {
        return Err(synthesized.message);
      }
      r := Ok(Some(synthesized.value));
    }
  }
}
