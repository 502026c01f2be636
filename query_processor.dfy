/**
 * The query processor agent (agents/query_processor.py): normalisation, intent
 * classification, keyword extraction and query variations, all on ASCII text.
 */
module QueryProcessor {
  import opened Common
  import opened Text
  import Agent
  import Metrics

  /** The twelve intent labels. */
  datatype Intent =
    | Definition | Person | Time | Location | Reason | Process
    | Tutorial | Recommendation | Comparison | Review | General | Unknown

  datatype ProcessedQuery = ProcessedQuery(
    originalQuery: string,
    normalizedQuery: string,
    intent: Intent,
    keywords: seq<string>,
    variations: seq<string>,
    queryLength: nat,
    processingTimeMs: real)

  /** The characters a normalised query is made of. */
  predicate NormalChar(c: char) {
    (IsWordChar(c) || c == ' ' || c == '-' || c == '?') && !IsUpper(c)
  }

  /** `_normalize_query`: lower-case, strip, collapse whitespace runs to one space, then
      delete every character other than `\w`, whitespace, `-` and `?`. The deletion comes
      last, so it can leave a leading space or two spaces in a row. */
  function Normalize(query: string): string {
    RemoveSpecial(CollapseSpaces(Strip(Lower(query))))
  }

  /** A normalised query holds only lower-case word characters, plain spaces, `-` and `?`. */
  lemma NormalizeChars(query: string)
    ensures forall i :: 0 <= i < |Normalize(query)| ==> NormalChar(Normalize(query)[i])
  {
    var lowered := Lower(query);
    LowerShape(query);
    StripShape(lowered);
    CollapseSpacesShape(Strip(lowered));
    RemoveSpecialShape(CollapseSpaces(Strip(lowered)));
  }

  lemma CollapseLetter()
    ensures CollapseSpaces("a") == "a"
  {
    assert "a"[1..] == [];
  }

  lemma CollapseSpaceLetter()
    ensures CollapseSpaces(" a") == " a"
  {
    CollapseStep(" a");
    assert " a"[1..] == "a";
    assert TrimLeft("a") == "a";
    CollapseLetter();
  }

  lemma CollapseBangSpaceLetter()
    ensures CollapseSpaces("! a") == "! a"
  {
    CollapseStep("! a");
    assert "! a"[1..] == " a";
    CollapseSpaceLetter();
  }

  lemma NormalizeSpecialThenSpace()
    ensures Normalize("! a") == " a"
  {
    assert Lower("! a") == "! a";
    assert TrimLeft("! a") == "! a" && TrimRight("! a") == "! a";
    CollapseBangSpaceLetter();
    assert RemoveSpecial("a") == "a" && RemoveSpecial(" a") == " a";
  }

  lemma NormalizeLeadingSpace()
    ensures Normalize(" a") == "a"
  {
    assert Lower(" a") == " a";
    assert TrimLeft(" a") == "a" && TrimRight("a") == "a";
    CollapseLetter();
    assert RemoveSpecial("a") == "a";
  }

  /** Normalising twice is not normalising once: the first pass leaves a leading space. */
  lemma NormalizeNotIdempotent()
    ensures Normalize("! a") == " a" && Normalize(Normalize("! a")) == "a"
  {
    NormalizeSpecialThenSpace();
    NormalizeLeadingSpace();
  }

  /** The question-word table consulted on the first word. */
  function QuestionIntent(word: string): Option<Intent> {
    if word == "what" then Some(Definition)
    else if word == "who" then Some(Person)
    else if word == "when" then Some(Time)
    else if word == "where" then Some(Location)
    else if word == "why" then Some(Reason)
    else if word == "how" then Some(Process)
    else None
  }

  /** `_extract_intent`: the first word decides when it is a question word; otherwise the
      substring rules are tried in order. */
  function ExtractIntent(query: string): Intent {
    var words := Words(query);
    if words == [] then Unknown
    else if QuestionIntent(Lower(words[0])).Some? then QuestionIntent(Lower(words[0])).value
    else if Contains(query, "how to") || Contains(query, "how do") then Tutorial
    else if Contains(query, "best") || Contains(query, "top") then Recommendation
    else if Contains(query, "compare") || Contains(query, "vs") || Contains(query, "versus") then Comparison
    else if Contains(query, "review") then Review
    else General
  }

  /** The rules of `_extract_intent` are tried in order and the first that applies decides:
      no words gives unknown; a question word in first place gives its own label (so a query
      opening with "how" is a process question, never a tutorial); otherwise each substring
      label is given exactly when its substrings occur and no earlier rule applied, and general
      exactly when none applied. */
  lemma ExtractIntentShape(query: string)
    ensures var ws := Words(query);
      var intent := ExtractIntent(query);
      var question := ws != [] && QuestionIntent(Lower(ws[0])).Some?;
      var howTo := Contains(query, "how to") || Contains(query, "how do");
      var best := Contains(query, "best") || Contains(query, "top");
      var versus := Contains(query, "compare") || Contains(query, "vs") || Contains(query, "versus");
      var review := Contains(query, "review");
      && (intent == Unknown <==> ws == [])
      && (question ==> intent == QuestionIntent(Lower(ws[0])).value)
      && (intent in {Definition, Person, Time, Location, Reason, Process} ==>
            question && QuestionIntent(Lower(ws[0])) == Some(intent))
      && (intent == Process <==> ws != [] && Lower(ws[0]) == "how")
      && (intent == Tutorial <==> ws != [] && !question && howTo)
      && (intent == Recommendation <==> ws != [] && !question && !howTo && best)
      && (intent == Comparison <==> ws != [] && !question && !howTo && !best && versus)
      && (intent == Review <==> ws != [] && !question && !howTo && !best && !versus && review)
      && (intent == General <==> ws != [] && !question && !howTo && !best && !versus && !review)
  {
  }

  const StopWords: set<string> :=
    {"a", "an", "the", "is", "are", "was", "were", "be", "been",
     "in", "on", "at", "to", "for", "of", "with", "by"}

  predicate IsKeyword(word: string) { word !in StopWords && |word| > 2 }

  /** The words that are neither stop words nor shorter than three characters, in order,
      duplicates included. */
  function Qualifying(words: seq<string>): (ks: seq<string>)
    ensures IsSubsequence(ks, words)
    ensures forall i :: 0 <= i < |ks| ==> IsKeyword(ks[i])
    ensures forall w :: w in words && IsKeyword(w) ==> w in ks
  {
    if words == [] then []
    else
      var rest := Qualifying(words[1..]);
      assert forall w :: w in words ==> w == words[0] || w in words[1..];
      if IsKeyword(words[0]) then
        assert ([words[0]] + rest)[1..] == rest;
        [words[0]] + rest
      else
        assert [words[0]] + words[1..] == words;
        SubsequenceSkip(rest, words[0], words[1..]);
        rest
  }

  /** Qualifying keeps every keyword as often as it occurs and drops every other word. */
  lemma {:induction false} QualifyingCounts(words: seq<string>)
    ensures forall w :: multiset(Qualifying(words))[w] == if IsKeyword(w) then multiset(words)[w] else 0
  {
    if words != [] {
      QualifyingCounts(words[1..]);
      assert words == [words[0]] + words[1..];
    }
  }

  /** `_extract_keywords`: the first five qualifying words of the query. */
  function ExtractKeywords(query: string): seq<string> {
    PyPrefix(Qualifying(Words(query)), 5)
  }

  /** At most five keywords, each a qualifying word of the query, taken in query order:
      exactly the first min(5, n) of the n qualifying words. */
  lemma ExtractKeywordsShape(query: string)
    ensures var ks := ExtractKeywords(query);
      && |ks| <= 5
      && (forall i :: 0 <= i < |ks| ==> IsKeyword(ks[i]) && ks[i] in Words(query))
      && IsSubsequence(ks, Words(query))
      && |ks| == MinInt(5, |Qualifying(Words(query))|)
      && ks == Qualifying(Words(query))[..|ks|]
  {
    var all := Qualifying(Words(query));
    var ks := PyPrefix(all, 5);
    SubsequenceOfPrefix(all, Words(query), |ks|);
    SubsequenceElements(ks, Words(query));
  }

  lemma WordsOfRustRust()
    ensures Words("rust rust") == ["rust", "rust"]
  {
    assert TakeWord(" rust") == "" && TakeWord("t rust") == "t";
    assert TakeWord("st rust") == "st" && TakeWord("ust rust") == "ust";
    assert TakeWord("rust rust") == "rust";
    assert TakeWord("rust") == "rust";
    assert Words("rust") == ["rust"];
    assert "rust rust"[4..] == " rust";
    assert Words(" rust") == Words("rust");
  }

  lemma QualifyingRustRust()
    ensures Qualifying(["rust", "rust"]) == ["rust", "rust"]
  {
    assert "rust" !in StopWords;
    assert ["rust", "rust"][1..] == ["rust"];
    assert ["rust"][1..] == [];
  }

  /** Keywords are not deduplicated. */
  lemma KeywordsKeepDuplicates()
    ensures ExtractKeywords("rust rust") == ["rust", "rust"]
  {
    WordsOfRustRust();
    QualifyingRustRust();
    assert PyPrefix(["rust", "rust"], 5) == ["rust", "rust"];
  }

  /** The variations in the order `_generate_variations` proposes them. */
  function Candidates(query: string, keywords: seq<string>): seq<string> {
    [query]
    + (if |keywords| >= 2 then [Join(keywords, " ")] else [])
    + (if |Words(query)| >= 2 then ["\"" + query + "\""] else [])
    + [query + " tutorial", query + " guide"]
  }

  predicate Distinct<T(==)>(s: seq<T>) {
    forall i, j :: 0 <= i < j < |s| ==> s[i] != s[j]
  }

  /** The elements of `vs` at their first occurrence, skipping those already in `seen`. */
  function FirstOccurrences(vs: seq<string>, seen: set<string>): seq<string> {
    if vs == [] then []
    else if vs[0] in seen then FirstOccurrences(vs[1..], seen)
    else [vs[0]] + FirstOccurrences(vs[1..], seen + {vs[0]})
  }

  /** What `_generate_variations` returns, by definition. */
  function Variations(query: string, keywords: seq<string>): seq<string> {
    PyPrefix(FirstOccurrences(Candidates(query, keywords), {}), 3)
  }

  /** `_generate_variations`: the candidates, deduplicated with a `seen` set, at most three. */
  method GenerateVariations(query: string, keywords: seq<string>) returns (vs: seq<string>)
    ensures vs == Variations(query, keywords)
    ensures 1 <= |vs| <= 3 && vs[0] == query && Distinct(vs)
  {
    var variations := CollectCandidates(query, keywords);
    var unique := Deduplicate(variations);
    vs := PyPrefix(unique, 3);
  }

  /** The candidate list, appended one proposal at a time. */
  method CollectCandidates(query: string, keywords: seq<string>) returns (variations: seq<string>)
    ensures variations == Candidates(query, keywords)
  {
    variations := [query];
    if |keywords| >= 2 {
      variations := variations + [Join(keywords, " ")];
    }
    if |Words(query)| >= 2 {
      variations := variations + ["\"" + query + "\""];
    }
    variations := variations + [query + " tutorial"];
    variations := variations + [query + " guide"];
  }

  /** The deduplication loop: each candidate not yet seen is kept and marked as seen. */
  method Deduplicate(variations: seq<string>) returns (unique: seq<string>)
    requires variations != []
    ensures unique == FirstOccurrences(variations, {})
    ensures |unique| >= 1 && unique[0] == variations[0] && Distinct(unique)
  {
    var seen: set<string> := {};
    unique := [];
    var i := 0;
    while i < |variations|
      invariant 0 <= i <= |variations|
      invariant unique + FirstOccurrences(variations[i..], seen) == FirstOccurrences(variations, {})
      invariant seen == set v | v in unique
      invariant Distinct(unique)
      invariant i == 0 ==> unique == [] && seen == {}
      invariant i >= 1 ==> |unique| >= 1 && unique[0] == variations[0]
    {
      var v := variations[i];
      assert variations[i..][1..] == variations[i + 1..];
      assert FirstOccurrences(variations[i..], seen) ==
        if v in seen then FirstOccurrences(variations[i + 1..], seen)
        else [v] + FirstOccurrences(variations[i + 1..], seen + {v});
      if v !in seen {
        assert forall k :: 0 <= k < |unique| ==> unique[k] in seen;
        seen := seen + {v};
        unique := unique + [v];
      }
      i := i + 1;
    }
    assert variations[i..] == [];
  }

  /** Candidates that are already distinct and unseen all survive deduplication. */
  lemma {:induction false} FirstOccurrencesOfDistinct(vs: seq<string>, seen: set<string>)
    requires Distinct(vs) && forall i :: 0 <= i < |vs| ==> vs[i] !in seen
    ensures FirstOccurrences(vs, seen) == vs
  {
    if vs != [] {
      FirstOccurrencesOfDistinct(vs[1..], seen + {vs[0]});
    }
  }

  /** With fewer than two keywords and a one-word query, the two modifier variations follow
      the query itself. */
  lemma VariationsWithoutExtras(query: string, keywords: seq<string>)
    requires |keywords| < 2 && |Words(query)| < 2
    ensures Variations(query, keywords) == [query, query + " tutorial", query + " guide"]
  {
    var t, g := query + " tutorial", query + " guide";
    var c := Candidates(query, keywords);
    assert c == [query, t, g];
    assert |t| == |query| + 9 && |g| == |query| + 6;
    FirstOccurrencesOfDistinct(c, {});
  }

  /** With fewer than two keywords but several words, the quoted phrase comes second. */
  lemma VariationsPhraseOnly(query: string, keywords: seq<string>)
    requires |keywords| < 2 && |Words(query)| >= 2
    ensures Variations(query, keywords) == [query, "\"" + query + "\"", query + " tutorial"]
  {
    var quoted, t, g := "\"" + query + "\"", query + " tutorial", query + " guide";
    var c := Candidates(query, keywords);
    assert c == [query, quoted, t, g];
    assert |quoted| == |query| + 2 && |t| == |query| + 9 && |g| == |query| + 6;
    FirstOccurrencesOfDistinct(c, {});
  }

  /** `len(query.split())` of the original query. */
  function WordCount(query: string): nat { |Words(query)| }

  /** The record `process` returns, for a run that took `processingTimeMs`. */
  function Processed(query: string, processingTimeMs: real): (pq: ProcessedQuery)
    ensures pq.originalQuery == query && pq.normalizedQuery == Normalize(query)
    ensures pq.queryLength == |Words(query)|
    ensures pq.intent == ExtractIntent(pq.normalizedQuery)
    ensures pq.keywords == ExtractKeywords(pq.normalizedQuery)
  {
    var normalized := Normalize(query);
    var keywords := ExtractKeywords(normalized);
    ProcessedQuery(query, normalized, ExtractIntent(normalized), keywords,
                   Variations(normalized, keywords), WordCount(query), processingTimeMs)
  }

  class QueryProcessorAgent {
    const base: Agent.BaseAgent

    constructor (metrics: Metrics.MetricsCollector?)
      ensures fresh(base) && base.name == "QueryProcessorAgent" && base.metrics == metrics
      ensures base.status == Agent.Initializing && base.tasksCompleted == 0
    {
      base := new Agent.BaseAgent("QueryProcessorAgent", metrics);
    }

    /** `process` between the clock readings `t0` and `t1`; `fault` stands for an
        exception raised inside the try-block, before `end_task`. */
    method Process(query: string, t0: real, t1: real, fault: Option<string>) returns (r: Result<ProcessedQuery>)
      modifies base, base.metrics
      ensures fault.None? ==> r == Ok(Processed(query, (t1 - t0) * 1000.0)) && Agent.CompletedTask(base, t0, t1)
      ensures fault.Some? ==>
        r == Err("Query processing failed: " + fault.value) && Agent.LeftTask(base, t0, Agent.Error)
    {
      var startTime := base.StartTask(t0);
      if fault.Some? {
        base.FailTask();
        return Err("Query processing failed: " + fault.value);
      }
      var normalized := Normalize(query);
      var intent := ExtractIntent(normalized);
      var keywords := ExtractKeywords(normalized);
      var variations := GenerateVariations(normalized, keywords);
      var executionTime := base.EndTask(startTime, t1);
      r := Ok(ProcessedQuery(query, normalized, intent, keywords, variations, WordCount(query), executionTime));
    }
  }
}
