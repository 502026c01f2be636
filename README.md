# Multi-agent search: a verified model

This project models the core of a multi-agent web search service in Dafny. A search
request passes through four agents in turn:

- the query processor normalises the query, classifies its intent, extracts keywords and
  proposes query variations;
- the search executor asks the DuckDuckGo and Wikipedia adapters for results, merges them
  and removes duplicate URLs;
- the analysis agent scores every result, sorts the list stably by descending score and
  numbers the ranks;
- the synthesis agent writes a summary, key points, a confidence figure and a count of
  results per source.

A search orchestrator runs these stages in order and counts successes and failures. A
metrics collector records searches and agent execution times. A TTL cache stores
responses.

One Dafny module stands for each source file:

| module | file | form |
|---|---|---|
| `Cache` | `cache.py` | class `SearchCache` over a `map` field |
| `Metrics` | `metrics.py` | class `MetricsCollector` over `seq`/`map` fields |
| `Agent` | `agents/base_agent.py` | class `BaseAgent` |
| `QueryProcessor` | `agents/query_processor.py` | pure functions and the deduplication loop |
| `SearchExecutor` | `agents/search_executor.py` | the merge loops and the source selection |
| `Analysis` | `agents/analysis_agent.py` | scoring functions and an in-place insertion sort on an `array` |
| `Synthesis` | `agents/synthesis_agent.py` | summary, key points, confidence and breakdown |
| `Orchestrator` | `agents/orchestrator.py` | class `SearchOrchestrator` running the four stages |

Two helper modules exist only to support these. `Common` holds `Option`, `Result`,
Python's `s[:n]` and a subsequence relation. `Text` holds ASCII lower-casing, `strip`,
whitespace collapsing, `split`, the special-character filter and substring search.

The source's inputs from outside the program become explicit parameters:

- Every clock reading (`datetime.now()`, `time.time()`) is a `real` parameter.
- The orchestrator takes all of one run's readings as a `Clock` record.
- Each search adapter is a function from the query and the limit to a `SourceOutcome`, which is either a result list or a raised exception.
- Whether the DuckDuckGo and Wikipedia libraries could be imported is a constant flag on the executor.
- An unexpected exception inside an agent's `try` block is a `fault` parameter. The model raises it after `start_task` and before `end_task`, and the agent's `except` branch then sets the status to error.
- In the orchestrator, the fault is a `Fault(stage, detail)` value that says which stage raises.

Python's class inheritance from `BaseAgent` becomes composition: each agent holds a
`const base: Agent.BaseAgent`.

`Orchestrator.Run` is the specification of a whole `execute_search` call. It is built
from the functions that specify each stage: `QueryProcessor.Processed`,
`SearchExecutor.Retrieved`, `Analysis.Analyzed` and `Synthesis.Synthesized`. Each agent
method is proved to return what its function computes. The lemmas beside each function
state what the source promises about it.

Behaviours of the code worth knowing:

- On failure, `execute_search` increments `failed_searches` but never calls the
  collector's `record_error`. The model's `ExecuteSearch` leaves `errorCount` unchanged.
- Keywords are the first five qualifying words, duplicates included
  (`QueryProcessor.KeywordsKeepDuplicates`). They are not unique.
- When no source is both named and available, the executor returns an empty list, not an
  error (`SearchExecutor.NoSourceNoResults`). The run then succeeds with no results and no
  synthesis (`Orchestrator.RunWithoutSources`).
- `synthesize` on an empty list returns the empty synthesis before `end_task`. The agent
  is left in the working state and nothing is counted (`Synthesis.SynthesisAgent.Synthesize`).
  The orchestrator never calls it with an empty list.
- `_normalize_query` is not idempotent. It removes special characters after collapsing
  whitespace, so it can leave a leading space: `Normalize("! a") == " a"` while
  `Normalize(" a") == "a"` (`QueryProcessor.NormalizeNotIdempotent`).

## Model

| member | source | states |
|---|---|---|
| `Cache.SearchCache.constructor` | cache.py:14-19 | an empty cache with zero hits and misses and the given TTL |
| `Cache.SearchCache.Get` | cache.py:21-36 | a live entry is a hit: its value is returned, `hits` grows by one and the map is unchanged; otherwise `None` is returned, `misses` grows by one and the key (if it was stale) is deleted; every lookup is counted exactly once (`hits + misses == lookups`) |
| `Cache.SearchCache.Set` | cache.py:38-45 | the key now maps to the value with `expiresAt == now + ttl` and `createdAt == now` (one clock reading, see Left out); every other key is unchanged; the cache invariant `expiresAt == createdAt + ttl` is kept |
| `Cache.SearchCache.Clear` | cache.py:47-52 | returns the number of entries held and leaves the map empty |
| `Cache.Unexpired` | cache.py:74-83 | a key survives a sweep at `now` exactly when it was present and not expired, with its entry unchanged |
| `Cache.SearchCache.CleanExpired` | cache.py:74-83 | the key-by-key deletion loop leaves exactly the unexpired entries |
| `Cache.SearchCache.Size` | cache.py:54-59 | sweeps first, then returns the number of unexpired entries |
| `Cache.HitRate` | cache.py:63-64 | 0 with no requests; otherwise `rate * (hits + misses) == hits * 100`; always within 0..100 |
| `Cache.SearchCache.GetStats` | cache.py:61-72 | the size after a sweep, the counters, their hit rate and the TTL |
| `Cache.SetThenGet` | cache.py:21-45 | a value stored at `t` is returned, as a hit, by a lookup before `t + ttl` |
| `Cache.SetThenGetExpired` | cache.py:21-45 | from `t + ttl` on, the lookup misses and the entry is removed |
| `Cache.SetKeepsOthers` | cache.py:38-45 | storing one key leaves every other key's presence and entry unchanged |
| `Metrics.MetricsCollector.constructor` | metrics.py:14-19 | zero counters, no executions, empty history, the given start time |
| `Metrics.AppendBoundedShape` | metrics.py:17-27 | the bounded history grows by one until it holds 100 records, then stays at 100; the new record is last; the result is the newest suffix of old history plus the new record |
| `Metrics.MetricsCollector.RecordSearch` | metrics.py:21-27 | the search count grows by one and the record is appended to the bounded history; the history never exceeds 100 records |
| `Metrics.MetricsCollector.RecordAgentExecution` | metrics.py:29-34 | the sample is appended to the agent's list, which is created if it did not exist; other agents are unchanged |
| `Metrics.MetricsCollector.RecordError` | metrics.py:36-38 | the error count grows by one |
| `Metrics.MetricsCollector.GetSearchHistory` | metrics.py:40-42 | `history[-limit:]`: a suffix of the history; the last `limit` records for a positive limit (all if fewer); everything for 0; all but the oldest `-limit` for a negative limit |
| `Metrics.Minimum` | metrics.py:63 | the minimum is an element and no element is smaller |
| `Metrics.Maximum` | metrics.py:64 | the maximum is an element and no element is larger |
| `Metrics.MeanBetweenExtremes` | metrics.py:62-64 | the mean of a non-empty list lies between its minimum and its maximum |
| `Metrics.Aggregate` | metrics.py:46-65 | all zeros for no samples; otherwise the count, the mean `sum / n`, and a minimum and maximum that are samples, bound every sample from below and above, and enclose the mean |
| `Metrics.MetricsCollector.GetAgentMetrics` | metrics.py:44-65 | for an unknown or empty agent, the zero record; otherwise its count, its mean, and a minimum and maximum that are recorded times bounding every recorded time, ordered `min <= avg <= max` |
| `Metrics.MetricsCollector.GetSummary` | metrics.py:67-83 | uptime `now - start`; the counters; searches per minute is 0 unless uptime is positive, else `rate * uptime == searches * 60`; one aggregate per recorded agent name, and only those |
| `Agent.BaseAgent.constructor` | agents/base_agent.py:14-21 | the given name and collector; initializing; no tasks, no time, never active |
| `Agent.BaseAgent.Initialize` | agents/base_agent.py:23-27 | the status becomes ready |
| `Agent.BaseAgent.StartTask` | agents/base_agent.py:29-33 | the status becomes working, the last activity is `now`, and `now` is returned as the start time |
| `Agent.BaseAgent.EndTask` | agents/base_agent.py:35-49 | returns `(now - start) * 1000`; one more task; that duration added to the total; ready again; last active `now`; exactly one sample under the agent's name in the attached collector, whose other fields are unchanged |
| `Agent.BaseAgent.FailTask` | agents/query_processor.py:75-77 | the except branch shared by the agents: the status becomes error |
| `Agent.AverageTime` | agents/base_agent.py:51-55 | 0 with no tasks, otherwise `avg * tasks == total` |
| `Agent.BaseAgent.GetAvgExecutionTime` | agents/base_agent.py:51-55 | 0 with no tasks, otherwise `avg * tasks == total` |
| `Agent.BaseAgent.GetStatus` | agents/base_agent.py:61-69 | name, status, task count and last activity as stored; the average as above |
| `QueryProcessor.NormalizeChars` | agents/query_processor.py:79-90 | a normalised query holds only lower-case word characters, plain spaces, `-` and `?` |
| `QueryProcessor.NormalizeNotIdempotent` | agents/query_processor.py:79-90 | normalising `"! a"` gives `" a"`, and normalising again gives `"a"` |
| `QueryProcessor.ExtractIntentShape` | agents/query_processor.py:92-114 | the rules apply in order and the first that applies decides: unknown exactly for a query with no words; a question-word label exactly when the first word is that question word, so "how to ..." is a process question and never a tutorial; tutorial, recommendation, comparison and review each exactly when their substrings occur and no earlier rule applied; general exactly when no rule applied |
| `QueryProcessor.Qualifying` | agents/query_processor.py:118-124 | the words that are neither stop words nor shorter than three characters, in query order: a subsequence of the words, all keywords, missing none |
| `QueryProcessor.QualifyingCounts` | agents/query_processor.py:118-124 | every qualifying word is kept as many times as it occurs in the query, repeats included, and every other word is dropped |
| `QueryProcessor.ExtractKeywordsShape` | agents/query_processor.py:116-126 | at most five keywords; each is a qualifying word of the query, in query order; exactly the first `min(5, n)` of the `n` qualifying words |
| `QueryProcessor.KeywordsKeepDuplicates` | agents/query_processor.py:116-126 | `"rust rust"` yields the keywords `["rust", "rust"]` |
| `QueryProcessor.CollectCandidates` | agents/query_processor.py:130-142 | the candidates in proposal order: the query, the joined keywords (two or more keywords), the quoted query (two or more words), then the tutorial and guide modifiers |
| `QueryProcessor.Deduplicate` | agents/query_processor.py:144-150 | the seen-set loop keeps the first occurrence of each candidate, in order; the result is duplicate-free and starts with the first candidate |
| `QueryProcessor.GenerateVariations` | agents/query_processor.py:128-152 | one to three distinct variations, the query itself first |
| `QueryProcessor.FirstOccurrencesOfDistinct` | agents/query_processor.py:144-150 | deduplication keeps a list of distinct, unseen candidates unchanged |
| `QueryProcessor.VariationsWithoutExtras` | agents/query_processor.py:128-152 | with fewer than two keywords and one word, the variations are the query, its tutorial and its guide form |
| `QueryProcessor.VariationsPhraseOnly` | agents/query_processor.py:128-152 | with fewer than two keywords and several words, the variations are the query, the quoted query and the tutorial form |
| `QueryProcessor.Processed` | agents/query_processor.py:39-73 | the record keeps the original query, the normalised query, the intent and keywords of the normalised query, and the word count of the original |
| `QueryProcessor.QueryProcessorAgent.Process` | agents/query_processor.py:39-77 | without a fault: the processed record, and the agent completes one task; with a fault: the prefixed error, and the agent is left in the error state with nothing counted |
| `SearchExecutor.OutcomesShape` | agents/search_executor.py:54-68 | at most two sources are asked; a source is asked exactly when it is named (both by default) and available; DuckDuckGo first, Wikipedia last |
| `SearchExecutor.ExtendAll` | agents/search_executor.py:153-162 | the first merge loop concatenates the lists of the sources that did not raise, in task order |
| `SearchExecutor.GatheredAppend` | agents/search_executor.py:155-162 | gathering distributes over concatenation of the outcome lists |
| `SearchExecutor.GatheredSkipsRaised` | agents/search_executor.py:156-158 | a source that raised contributes nothing, wherever it sits |
| `SearchExecutor.UniqueByUrl` | agents/search_executor.py:164-174 | the second merge loop keeps a result when its URL is non-empty and not yet seen |
| `SearchExecutor.MergeResults` | agents/search_executor.py:151-174 | `_merge_results` is the URL deduplication of the gathered lists |
| `SearchExecutor.DedupFreshUrls` | agents/search_executor.py:168-172 | no kept result has an empty URL or an already-seen URL |
| `SearchExecutor.DedupDistinctUrls` | agents/search_executor.py:164-174 | the kept results have pairwise distinct URLs |
| `SearchExecutor.DedupSubsequence` | agents/search_executor.py:164-174 | the kept results appear in the merged list, in its order |
| `SearchExecutor.DedupCovers` | agents/search_executor.py:164-174 | every non-empty URL of the merged list is represented among the kept results |
| `SearchExecutor.DedupKeepsFirst` | agents/search_executor.py:164-174 | each kept result is the first one in the merged list carrying its URL |
| `SearchExecutor.Annotated` | agents/search_executor.py:78-81 | same length; each result is unchanged except for the retrieval time and the execution time |
| `SearchExecutor.SearchExecutorAgent.Annotate` | agents/search_executor.py:78-81 | the stamping loop produces exactly the annotated list |
| `SearchExecutor.SearchExecutorAgent.Collect` | agents/search_executor.py:52-74 | the source tasks, their merge and the cut to `max_results` |
| `SearchExecutor.MergedPrefixShape` | agents/search_executor.py:71-74 | a merge cut to a non-negative limit is within the limit, with non-empty, distinct URLs |
| `SearchExecutor.KeptShape` | agents/search_executor.py:54-74 | the merged and cut list is within the limit, with non-empty, distinct URLs |
| `SearchExecutor.RetrievedShape` | agents/search_executor.py:36-83 | the returned list is within the limit, has non-empty distinct URLs, and every result carries both stamps |
| `SearchExecutor.NoSourceNoResults` | agents/search_executor.py:54-83 | with no source both named and available, the result is the empty list, not an error |
| `SearchExecutor.BothSourcesInOrder` | agents/search_executor.py:55-71 | with the default sources available, DuckDuckGo's results precede Wikipedia's in the merge |
| `SearchExecutor.SearchExecutorAgent.SearchParallel` | agents/search_executor.py:36-87 | without a fault: the retrieved list, stamped with the task's duration, and the agent completes one task; with a fault: the prefixed error, and the agent is left in the error state |
| `Analysis.Authority` | agents/analysis_agent.py:24-29 | 0.9 exactly for Wikipedia, 0.7 exactly for DuckDuckGo, and 0.5 for every other source or none |
| `Analysis.PositionScore` | agents/analysis_agent.py:112-114 | never negative; `1 - (p - 1) * 0.1` up to position 11; 0 from position 11 on; at most 1 for positions from 1 |
| `Analysis.KeywordMatches` | agents/analysis_agent.py:130 | at most the number of keywords; equal to it exactly when all occur; 0 exactly when none occurs |
| `Analysis.TextRelevance` | agents/analysis_agent.py:118-134 | within [0, 1]; 0 for empty text; at least 0.5 when the query occurs, at most 0.5 when it does not; 1 when the query and every keyword occur; 0 when nothing occurs |
| `Analysis.Relevance` | agents/analysis_agent.py:83-116 | at least 0.1; at most 0.98 for positions from 1; with no title and no snippet, only authority and position count |
| `Analysis.Scored` | agents/analysis_agent.py:52-56 | each result keeps every field except its score, which becomes its relevance |
| `Analysis.AnalysisAgent.ScoreAll` | agents/analysis_agent.py:52-56 | the scoring loop leaves the array holding the scored list |
| `Analysis.InsertDescLands` | agents/analysis_agent.py:59 | an element is inserted after every element scoring at least as much |
| `Analysis.AnalysisAgent.InsertAt` | agents/analysis_agent.py:59 | one insertion pass inserts `a[i]` into the sorted prefix and leaves the rest of the array unchanged |
| `Analysis.AnalysisAgent.SortInPlace` | agents/analysis_agent.py:59 | the in-place sort leaves exactly `SortByScore` of the old contents |
| `Analysis.SortByScoreSorted` | agents/analysis_agent.py:59 | the sort's result has non-increasing scores |
| `Analysis.SortByScorePermutation` | agents/analysis_agent.py:59 | the sort's result is a permutation of its input |
| `Analysis.SortByScoreStable` | agents/analysis_agent.py:59 | the sort is stable: results of equal score keep their input order |
| `Analysis.SortByScoreUnranked` | agents/analysis_agent.py:59 | the sort looks only at scores, so it commutes with clearing the ranks |
| `Analysis.AnalysisAgent.AssignRanks` | agents/analysis_agent.py:61-63 | the ranking loop gives the result at index `i` the rank `i + 1` |
| `Analysis.AnalyzedProperties` | agents/analysis_agent.py:52-63 | the analysed list has the input's length, ranks 1..N in list order and non-increasing scores; ranks aside, it is a stable permutation of the scored input |
| `Analysis.AnalyzedEmpty` | agents/analysis_agent.py:45-47 | the empty list analyses to the empty list |
| `Analysis.AnalysisAgent.Analyze` | agents/analysis_agent.py:31-81 | an empty list gives an empty list and a completed task; otherwise, without a fault, the array is scored, sorted and ranked in place, returned, and the task completes; with a fault, the error and an unchanged array |
| `Synthesis.SnippetPartShape` | agents/synthesis_agent.py:88-97 | an empty snippet gives the fallback sentence; a snippet of at most 200 characters is quoted whole; a longer one is cut to exactly 200 characters followed by "..." |
| `Synthesis.SummaryShape` | agents/synthesis_agent.py:71-99 | no results give the fixed sentence; otherwise the summary is the intent's lead-in followed by the top result's snippet part |
| `Synthesis.SynthesisAgent.GenerateSummary` | agents/synthesis_agent.py:71-99 | the summary built piece by piece is `Summary` |
| `Synthesis.TitlesShape` | agents/synthesis_agent.py:105-109 | the titles taken are non-empty, no more than the results, include every non-empty title, and come only from the results |
| `Synthesis.TitlesInOrder` | agents/synthesis_agent.py:105-109 | the titles taken keep result order and repeats: a subsequence of all the titles, with one entry per result whose title is non-empty |
| `Synthesis.KeyPointsShape` | agents/synthesis_agent.py:101-111 | one to three key points: the fallback alone when none of the first three results has a title; otherwise the non-empty titles of the first three results, in result order, with repeats kept |
| `Synthesis.SynthesisAgent.ExtractKeyPoints` | agents/synthesis_agent.py:101-111 | the key-point loop produces `KeyPoints` |
| `Synthesis.QualityCount` | agents/synthesis_agent.py:125 | at most the number of results; 0 exactly when no score exceeds 0.5 |
| `Synthesis.Confidence` | agents/synthesis_agent.py:113-116 | no results give confidence 0 |
| `Synthesis.ConfidenceBounds` | agents/synthesis_agent.py:113-130 | with every score in [0, hi] and hi <= 1, the confidence is in [0, 1]; with no score above 0.5 it is at most 0.7 * hi |
| `Synthesis.ConfidenceCountSaturates` | agents/synthesis_agent.py:118-128 | five or more results above 0.5 give the count term its full weight 0.3 |
| `Synthesis.BreakdownCounts` | agents/synthesis_agent.py:132-138 | every name in the breakdown maps to the number of results counted under it, which is positive; every result's name is present; absent names count no result |
| `Synthesis.BreakdownTotal` | agents/synthesis_agent.py:132-138 | the breakdown's counts add up to the number of results |
| `Synthesis.SynthesisAgent.GetSourcesBreakdown` | agents/synthesis_agent.py:132-138 | the counting loop produces `Breakdown` |
| `Synthesis.EmptySynthesis` | agents/synthesis_agent.py:140-149 | the fixed empty record: its sentence, no key points, zero confidence, no sources, nothing synthesised, no timestamp |
| `Synthesis.SynthesizedShape` | agents/synthesis_agent.py:40-65 | a synthesis covers `min(5, N)` results, its source counts add up to that number, it has one to three key points, and its summary is the lead-in followed by the top snippet part |
| `Synthesis.SynthesisAgent.Parts` | agents/synthesis_agent.py:40-53 | summary, key points and breakdown come from the top five results, the confidence from all of them |
| `Synthesis.SynthesisAgent.Compose` | agents/synthesis_agent.py:40-65 | the synthesised record with the task's duration, and the agent completes one task |
| `Synthesis.SynthesisAgent.Synthesize` | agents/synthesis_agent.py:23-69 | an empty list gives the empty synthesis and leaves the agent working with nothing counted; otherwise, without a fault, the synthesised record and a completed task; with a fault, the prefixed error and the error state |
| `Orchestrator.AgentsUsed` | agents/orchestrator.py:127-137 | query processor and search executor first; analysis exactly when enabled, and third; synthesis exactly when included; two to four entries |
| `Orchestrator.SearchOrchestrator.GetAgentsUsed` | agents/orchestrator.py:127-137 | the list appended one agent at a time is `AgentsUsed` |
| `Orchestrator.SuccessRate` | agents/orchestrator.py:145-148 | 0 before any search; otherwise `rate * total == successful * 100`; within 0..100 when successes do not exceed searches |
| `Orchestrator.SearchOrchestrator.GetStatus` | agents/orchestrator.py:139-149 | the status, the three counters and their success rate |
| `Orchestrator.SearchOrchestrator.constructor` | agents/orchestrator.py:15-27 | the given agents and collector; ready; all counters zero |
| `Orchestrator.Assembled` | agents/orchestrator.py:95-115 | the response answers the request's query with the final results and the synthesis; agents used as requested; analysis time 0; no cache hit |
| `Orchestrator.LaterStagesGating` | agents/orchestrator.py:74-93 | past the search, results pass through unchanged unless analysis is enabled and something was found, in which case they are analysed; their number is kept; a synthesis is present exactly when it was asked for and there are results |
| `Orchestrator.RunBounded` | agents/orchestrator.py:29-120 | a successful run answers its own query and never returns more results than a non-negative limit |
| `Orchestrator.RunEarlyFailures` | agents/orchestrator.py:59-71 | a fault in query processing or in the search always fails the run, with the stage's message behind the orchestrator's prefix |
| `Orchestrator.AnalysisFailure` | agents/orchestrator.py:74-83 | a fault in analysis fails the run exactly when analysis runs; otherwise the run is as without the fault |
| `Orchestrator.SynthesisFailure` | agents/orchestrator.py:85-93 | a fault in synthesis fails the run exactly when synthesis runs; otherwise the run is as without the fault |
| `Orchestrator.RunWithoutSources` | agents/orchestrator.py:65-93 | with no source named and available, a run that gets past the search succeeds with no results and no synthesis |
| `Orchestrator.SearchOrchestrator.ProcessStep` | agents/orchestrator.py:61 | the query processor's outcome; the collector's counters and history are unchanged |
| `Orchestrator.SearchOrchestrator.SearchStep` | agents/orchestrator.py:67-71 | the search executor's outcome; the collector's counters and history are unchanged |
| `Orchestrator.SearchOrchestrator.AnalysisStep` | agents/orchestrator.py:74-83 | the analysis outcome, with results passed through when analysis is off or nothing was found |
| `Orchestrator.SearchOrchestrator.SynthesisStep` | agents/orchestrator.py:85-93 | the synthesis outcome, `None` when synthesis is off or there are no results |
| `Orchestrator.SearchOrchestrator.Respond` | agents/orchestrator.py:95-115 | the response record is `Assembled` |
| `Orchestrator.SearchOrchestrator.Finish` | agents/orchestrator.py:85-120 | the synthesis stage, then the response or the prefixed failure |
| `Orchestrator.SearchOrchestrator.Later` | agents/orchestrator.py:74-120 | the analysis and synthesis stages, as `LaterStages` specifies |
| `Orchestrator.SearchOrchestrator.Searched` | agents/orchestrator.py:65-120 | the search and the later stages, as `AfterProcessing` specifies |
| `Orchestrator.SearchOrchestrator.Stages` | agents/orchestrator.py:55-120 | the four stages, as `Run` specifies; the collector's counters and history are unchanged |
| `Orchestrator.SearchOrchestrator.Begin` | agents/orchestrator.py:52-57 | the search is counted here and in the collector, and the query and its time are appended to the collector's history, which keeps only the newest 100 |
| `Orchestrator.SearchOrchestrator.Count` | agents/orchestrator.py:117-123 | the outcome is counted as one success or one failure |
| `Orchestrator.SearchOrchestrator.ExecuteSearch` | agents/orchestrator.py:29-125 | the outcome is `Run`'s; the search is counted once here and once in the collector, as exactly one success or one failure (`successful + failed == total`); the query is appended to the collector's bounded history; the collector's error count is unchanged |

## Left out

- Rounding: `round(x, 2)` and `round(x, 3)` on execution times, relevance scores, confidence, hit rate, success rate and metrics aggregates are not modelled. Every figure is the exact real value before rounding.
- Analysis.Relevance: the relevance score is not clamped to [0, 1] at position 0 or below. The adapters number positions from 1, and from there the model proves a score within [0.1, 0.98].
- Time: ISO-8601 timestamp strings are not modelled. Clock readings are `real` seconds passed in as parameters. Where the source reads the clock twice in a row, the model uses a single reading, as the two lines below say.
- Cache.SearchCache.Set: `set` calls `datetime.now()` twice (cache.py:43-44), so in the source `expires_at` is at most `created_at + ttl`. The model takes one reading `now` for both fields, and the invariant `expiresAt == createdAt + ttl` holds only under that merge.
- SearchExecutor.Annotated: the source reads the clock once per result for `retrieved_at` (agents/search_executor.py:80). The model stamps every result with one `retrievedAt` reading.
- Concurrency: the cache's lock and `asyncio.gather` are not modelled. Each cache call runs alone. The two source tasks are evaluated in list order, and their results are merged in that same order, as `gather` returns them.
- Network: the DuckDuckGo and Wikipedia adapters (`_search_duckduckgo`, `_search_wikipedia`) are not modelled. They are arbitrary functions from the query and the limit to a result list or an exception. Their own error swallowing, the Wikipedia cap of five titles and the `search_timeout` constant are therefore not modelled.
- Unicode: text is ASCII only. `lower()`, `strip()`, `split()`, the regex classes `\s` and `\w`, and substring search are modelled on ASCII characters.
- Dictionary defaults: the `.get(key, default)` fallbacks on result records are unreachable, because the adapters always set every key, `source` included (agents/search_executor.py:105, 136). The model still lets `source` be absent (`None`) so that it can state the fallbacks: an absent source counts as "default" (authority 0.5) or "unknown" (breakdown).
- Aliasing: the analysis agent sorts the orchestrator's `search_results` list in place. The model copies that list into a fresh array before analysing it. The response only reads the list's emptiness and its execution-time stamp, which the sort does not change.
- Unused values: the analysis agent's `analysis_metadata` is computed and discarded, so it is left out. The orchestrator's `cache` field is never used, so it is not a field of `SearchOrchestrator`.
- Print statements and `get_capabilities` are left out; the capability lists are constant and nothing reads them.
- The web application, the test script and the package initialiser are not part of this model.
