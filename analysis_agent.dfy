/**
 * The analysis agent (agents/analysis_agent.py): scores every result by a weighted sum of
 * title relevance, snippet relevance, source authority and position, sorts the list in
 * place by descending score (stably, as Python's `list.sort` is), and numbers the ranks
 * 1..N. Scores are reals; the rounding to three decimals is not modelled.
 */
module Analysis {
  import opened Common
  import opened Text
  import opened SearchExecutor
  import QueryProcessor
  import Agent
  import Metrics

  /** The source authority table; a missing or unlisted source gets the default 0.5. */
  function Authority(source: Option<string>): (a: real)
    ensures 0.5 <= a <= 0.9
    ensures source == Some("wikipedia") <==> a == 0.9
    ensures source == Some("duckduckgo") <==> a == 0.7
    ensures source != Some("wikipedia") && source != Some("duckduckgo") ==> a == 0.5
  {
    if source == Some("wikipedia") then 0.9
    else if source == Some("duckduckgo") then 0.7
    else 0.5
  }

  /** `max(0, 1.0 - (position - 1) * 0.1)`: 1 for the first position, 0.1 less for each
      later one, and nothing from the eleventh on. */
  function PositionScore(position: int): (p: real)
    ensures p >= 0.0
    ensures position >= 11 ==> p == 0.0
    ensures position <= 11 ==> p == 1.0 - (position - 1) as real * 0.1
    ensures position >= 1 ==> p <= 1.0
  {
    MaxReal(0.0, 1.0 - (position - 1) as real * 0.1)
  }

  /** How many keywords occur in `text`. */
  function KeywordMatches(text: string, keywords: seq<string>): (n: nat)
    ensures n <= |keywords|
    ensures n == |keywords| <==> forall i :: 0 <= i < |keywords| ==> Contains(text, keywords[i])
    ensures n == 0 <==> forall i :: 0 <= i < |keywords| ==> !Contains(text, keywords[i])
  {
    if keywords == [] then 0
    else
      var rest := KeywordMatches(text, keywords[1..]);
      assert forall i :: 1 <= i < |keywords| ==> keywords[i] == keywords[1..][i - 1];
      (if Contains(text, keywords[0]) then 1 else 0) + rest
  }

  /** A share of matched keywords lies between 0 and 1, and is 1 when all match. */
  lemma ShareBounds(matches: nat, count: nat)
    requires matches <= count
    ensures var share := if count > 0 then matches as real / count as real else 0.0;
      0.0 <= share <= 1.0 && (count > 0 && matches == count ==> share == 1.0)
  {
    if count > 0 {
      Metrics.DivideBounds(matches as real, count as real, 0.0, 1.0);
    }
  }

  /** `_text_relevance`: half for containing the whole query, up to half for the share of
      keywords contained, capped at 1; nothing for empty text. */
  function TextRelevance(text: string, query: string, keywords: seq<string>): (r: real)
    ensures 0.0 <= r <= 1.0
    ensures text == [] ==> r == 0.0
    ensures text != [] && Contains(text, query) ==> r >= 0.5
    ensures !Contains(text, query) ==> r <= 0.5
    ensures text != [] && Contains(text, query) && keywords != [] && KeywordMatches(text, keywords) == |keywords| ==> r == 1.0
    ensures text != [] && Contains(text, query) && keywords == [] ==> r == 0.5
    ensures KeywordMatches(text, keywords) == 0 && !Contains(text, query) ==> r == 0.0
  {
    if text == [] then 0.0
    else
      var exact := if Contains(text, query) then 0.5 else 0.0;
      var matches := KeywordMatches(text, keywords);
      var share := if keywords != [] then matches as real / |keywords| as real else 0.0;
      ShareBounds(matches, |keywords|);
      MinReal(exact + share * 0.5, 1.0)
  }

  /** `_calculate_relevance`: 40% title, 30% snippet (both lower-cased), 20% authority and
      10% position. */
  function Relevance(result: SearchResult, query: string, keywords: seq<string>): (score: real)
    ensures score >= 0.1
    ensures result.position >= 1 ==> score <= 0.98
    ensures result.title == [] && result.snippet == [] ==>
      score == Authority(result.source) * 0.2 + PositionScore(result.position) * 0.1
  {
    TextRelevance(Lower(result.title), query, keywords) * 0.4
    + TextRelevance(Lower(result.snippet), query, keywords) * 0.3
    + Authority(result.source) * 0.2
    + PositionScore(result.position) * 0.1
  }

  /** Every result with its relevance score filled in. */
  function Scored(rs: seq<SearchResult>, query: string, keywords: seq<string>): (out: seq<SearchResult>)
    ensures |out| == |rs|
    ensures forall i :: 0 <= i < |rs| ==> out[i] == rs[i].(relevanceScore := Relevance(rs[i], query, keywords))
  {
    seq(|rs|, i requires 0 <= i < |rs| => rs[i].(relevanceScore := Relevance(rs[i], query, keywords)))
  }

  predicate SortedDesc(s: seq<SearchResult>) {
    forall i, j :: 0 <= i < j < |s| ==> s[i].relevanceScore >= s[j].relevanceScore
  }

  /** Inserts `x` into `t` after every element scoring at least as much as `x`. */
  function InsertDesc(t: seq<SearchResult>, x: SearchResult): seq<SearchResult> {
    if t == [] || t[|t| - 1].relevanceScore >= x.relevanceScore then t + [x]
    else InsertDesc(t[..|t| - 1], x) + [t[|t| - 1]]
  }

  /** Where an insertion lands: behind position `j` when every element from `j` on scores
      strictly less than `x` and the one before `j`, if any, scores at least as much. */
  lemma {:induction false} InsertDescLands(p: seq<SearchResult>, x: SearchResult, j: nat)
    requires j <= |p| && (j == 0 || p[j - 1].relevanceScore >= x.relevanceScore)
    requires forall k :: j <= k < |p| ==> p[k].relevanceScore < x.relevanceScore
    ensures InsertDesc(p, x) == p[..j] + [x] + p[j..]
    decreases |p|
  {
    if j == |p| {
      assert p[..j] == p && p[j..] == [];
    } else {
      var init := p[..|p| - 1];
      InsertDescLands(init, x, j);
      assert init[..j] == p[..j] && init[j..] + [p[|p| - 1]] == p[j..];
    }
  }

  /** The array contents after one insertion pass, read back as a sequence. */
  lemma ShiftedInsert(s: seq<SearchResult>, prefix: seq<SearchResult>, x: SearchResult, i: nat, j: nat)
    requires j <= i < |s| && |prefix| == i
    requires forall k :: 0 <= k < j ==> s[k] == prefix[k]
    requires s[j] == x
    requires forall k :: j < k <= i ==> s[k] == prefix[k - 1]
    ensures s[..i + 1] == prefix[..j] + [x] + prefix[j..i]
  {
  }

  /** Insertion sort by descending score: what `results.sort(key=..., reverse=True)` leaves. */
  function SortByScore(s: seq<SearchResult>): seq<SearchResult> {
    if s == [] then [] else InsertDesc(SortByScore(s[..|s| - 1]), s[|s| - 1])
  }

  /** The elements of `s` whose score is `v`, in order. */
  function WithScore(s: seq<SearchResult>, v: real): seq<SearchResult> {
    if s == [] then []
    else (if s[0].relevanceScore == v then [s[0]] else []) + WithScore(s[1..], v)
  }

  lemma {:induction false} WithScoreAppend(a: seq<SearchResult>, b: seq<SearchResult>, v: real)
    ensures WithScore(a + b, v) == WithScore(a, v) + WithScore(b, v)
  {
    if a != [] {
      assert (a + b)[1..] == a[1..] + b;
      WithScoreAppend(a[1..], b, v);
    } else {
      assert a + b == b;
    }
  }

  lemma {:induction false} InsertDescMultiset(t: seq<SearchResult>, x: SearchResult)
    ensures multiset(InsertDesc(t, x)) == multiset(t) + multiset{x}
  {
    if !(t == [] || t[|t| - 1].relevanceScore >= x.relevanceScore) {
      InsertDescMultiset(t[..|t| - 1], x);
      assert t == t[..|t| - 1] + [t[|t| - 1]];
    }
  }

  lemma {:induction false} InsertDescSorted(t: seq<SearchResult>, x: SearchResult)
    requires SortedDesc(t)
    ensures SortedDesc(InsertDesc(t, x))
  {
    if !(t == [] || t[|t| - 1].relevanceScore >= x.relevanceScore) {
      var init, last := t[..|t| - 1], t[|t| - 1];
      InsertDescSorted(init, x);
      InsertDescMultiset(init, x);
      var ins := InsertDesc(init, x);
      forall i | 0 <= i < |ins|
        ensures ins[i].relevanceScore >= last.relevanceScore
      {
        assert ins[i] in multiset(ins);
        assert ins[i] in multiset(init) || ins[i] == x;
        if ins[i] != x {
          var k :| 0 <= k < |init| && init[k] == ins[i];
          assert t[k] == init[k];
        }
      }
    }
  }

  /** Inserting keeps, among the elements of each score, the order they arrived in. */
  lemma {:induction false} InsertDescStable(t: seq<SearchResult>, x: SearchResult, v: real)
    ensures WithScore(InsertDesc(t, x), v) == WithScore(t + [x], v)
  {
    if !(t == [] || t[|t| - 1].relevanceScore >= x.relevanceScore) {
      var init, last := t[..|t| - 1], t[|t| - 1];
      InsertDescStable(init, x, v);
      WithScoreAppend(InsertDesc(init, x), [last], v);
      WithScoreAppend(init, [x], v);
      WithScoreAppend(init, [last], v);
      WithScoreAppend(init + [last], [x], v);
      assert init + [last] == t;
      assert [x][1..] == [] && [last][1..] == [];
      // `last` scores strictly less than `x`, so at most one of them scores `v`.
      assert WithScore([x], v) == [] || WithScore([last], v) == [];
    }
  }

  /** The sort's result is ordered by descending score. */
  lemma {:induction false} SortByScoreSorted(s: seq<SearchResult>)
    ensures SortedDesc(SortByScore(s))
  {
    if s != [] {
      SortByScoreSorted(s[..|s| - 1]);
      InsertDescSorted(SortByScore(s[..|s| - 1]), s[|s| - 1]);
    }
  }

  /** The sort's result is a permutation of its input. */
  lemma {:induction false} SortByScorePermutation(s: seq<SearchResult>)
    ensures multiset(SortByScore(s)) == multiset(s)
  {
    if s != [] {
      SortByScorePermutation(s[..|s| - 1]);
      InsertDescMultiset(SortByScore(s[..|s| - 1]), s[|s| - 1]);
      assert s == s[..|s| - 1] + [s[|s| - 1]];
    }
  }

  /** The sort is stable: the elements of each score keep their input order. */
  lemma {:induction false} SortByScoreStable(s: seq<SearchResult>, v: real)
    ensures WithScore(SortByScore(s), v) == WithScore(s, v)
  {
    if s != [] {
      var init, last := s[..|s| - 1], s[|s| - 1];
      SortByScoreStable(init, v);
      InsertDescStable(SortByScore(init), last, v);
      WithScoreAppend(SortByScore(init), [last], v);
      WithScoreAppend(init, [last], v);
      assert s == init + [last];
    }
  }

  /** Every result with its rank, its index plus one, filled in. */
  function Ranked(s: seq<SearchResult>): (r: seq<SearchResult>)
    ensures |r| == |s| && forall i :: 0 <= i < |s| ==> r[i] == s[i].(rank := Some(i + 1))
  {
    seq(|s|, i requires 0 <= i < |s| => s[i].(rank := Some(i + 1)))
  }

  /** The list forgetting its ranks, for comparing lists up to the rank field. */
  function Unranked(s: seq<SearchResult>): (r: seq<SearchResult>)
    ensures |r| == |s| && forall i :: 0 <= i < |s| ==> r[i] == s[i].(rank := None)
  {
    seq(|s|, i requires 0 <= i < |s| => s[i].(rank := None))
  }

  /** Sorting looks only at scores, so it commutes with forgetting ranks. */
  lemma {:induction false} InsertDescUnranked(t: seq<SearchResult>, x: SearchResult)
    ensures Unranked(InsertDesc(t, x)) == InsertDesc(Unranked(t), x.(rank := None))
  {
    if !(t == [] || t[|t| - 1].relevanceScore >= x.relevanceScore) {
      InsertDescUnranked(t[..|t| - 1], x);
      assert Unranked(t)[..|t| - 1] == Unranked(t[..|t| - 1]);
      assert Unranked(InsertDesc(t[..|t| - 1], x) + [t[|t| - 1]])
        == Unranked(InsertDesc(t[..|t| - 1], x)) + [t[|t| - 1].(rank := None)];
    } else {
      assert Unranked(t + [x]) == Unranked(t) + [x.(rank := None)];
    }
  }

  lemma {:induction false} SortByScoreUnranked(s: seq<SearchResult>)
    ensures Unranked(SortByScore(s)) == SortByScore(Unranked(s))
  {
    if s != [] {
      SortByScoreUnranked(s[..|s| - 1]);
      InsertDescUnranked(SortByScore(s[..|s| - 1]), s[|s| - 1]);
      assert Unranked(s)[..|s| - 1] == Unranked(s[..|s| - 1]);
    }
  }

  /** What `analyze` leaves in the list: scored, sorted, ranked. */
  function Analyzed(rs: seq<SearchResult>, query: string, keywords: seq<string>): seq<SearchResult> {
    Ranked(SortByScore(Scored(rs, query, keywords)))
  }

  /** The analysed list has the input's length, ranks 1..N in list order, non-increasing
      scores, and, ranks aside, it is a stable reordering of the scored input. */
  lemma AnalyzedProperties(rs: seq<SearchResult>, query: string, keywords: seq<string>, v: real)
    ensures var r := Analyzed(rs, query, keywords);
      && |r| == |rs|
      && (forall i :: 0 <= i < |r| ==> r[i].rank == Some(i + 1))
      && SortedDesc(r)
      && multiset(Unranked(r)) == multiset(Unranked(Scored(rs, query, keywords)))
      && WithScore(Unranked(r), v) == WithScore(Unranked(Scored(rs, query, keywords)), v)
  {
    var scored := Scored(rs, query, keywords);
    var sorted := SortByScore(scored);
    SortByScoreSorted(scored);
    SortByScorePermutation(Unranked(scored));
    SortByScoreStable(Unranked(scored), v);
    SortByScoreUnranked(scored);
    assert Unranked(Ranked(sorted)) == Unranked(sorted);
    assert |sorted| == |scored| by {
      SortByScorePermutation(scored);
      assert |multiset(sorted)| == |multiset(scored)|;
    }
  }

  /** The empty list analyses to the empty list. */
  lemma AnalyzedEmpty(query: string, keywords: seq<string>)
    ensures Analyzed([], query, keywords) == []
  {
  }

  class AnalysisAgent {
    const base: Agent.BaseAgent

    constructor (metrics: Metrics.MetricsCollector?)
      ensures fresh(base) && base.name == "AnalysisAgent" && base.metrics == metrics
      ensures base.status == Agent.Initializing && base.tasksCompleted == 0
    {
      base := new Agent.BaseAgent("AnalysisAgent", metrics);
    }

    /** The scoring loop. */
    static method ScoreAll(a: array<SearchResult>, query: string, keywords: seq<string>)
      modifies a
      ensures a[..] == Scored(old(a[..]), query, keywords)
    {
      ghost var input := a[..];
      ghost var target := Scored(input, query, keywords);
      var i := 0;
      while i < a.Length
        invariant 0 <= i <= a.Length
        invariant forall k :: 0 <= k < i ==> a[k] == target[k]
        invariant forall k :: i <= k < a.Length ==> a[k] == input[k]
      {
        a[i] := a[i].(relevanceScore := Relevance(a[i], query, keywords));
        i := i + 1;
      }
    }

    /** One pass of the insertion sort: `a[i]` moves left past the elements of the sorted
        prefix `a[..i]` that score strictly less. */
    static method InsertAt(a: array<SearchResult>, i: nat)
      requires i < a.Length
      modifies a
      ensures a[..i + 1] == InsertDesc(old(a[..i]), old(a[i]))
      ensures a[i + 1..] == old(a[i + 1..])
    {
      var x := a[i];
      ghost var prefix := a[..i];
      var j := i;
      while j > 0 && a[j - 1].relevanceScore < x.relevanceScore
        invariant 0 <= j <= i
        invariant forall k :: 0 <= k < j ==> a[k] == prefix[k]
        invariant forall k :: j < k <= i ==> a[k] == prefix[k - 1]
        invariant forall k :: i < k < a.Length ==> a[k] == old(a[k])
        invariant forall k :: j <= k < i ==> prefix[k].relevanceScore < x.relevanceScore
      {
        a[j] := a[j - 1];
        j := j - 1;
      }
      InsertDescLands(prefix, x, j);
      a[j] := x;
      ShiftedInsert(a[..], prefix, x, i, j);
    }

    /** `results.sort(key=lambda x: x['relevance_score'], reverse=True)`, as an in-place
        insertion sort that moves an element left only past strictly smaller scores. */
    static method SortInPlace(a: array<SearchResult>)
      modifies a
      ensures a[..] == SortByScore(old(a[..]))
    {
      ghost var input := a[..];
      var i := 0;
      while i < a.Length
        invariant 0 <= i <= a.Length
        invariant a[..i] == SortByScore(input[..i])
        invariant a[i..] == input[i..]
      {
        assert input[..i + 1][..i] == input[..i] && a[i] == input[i];
        InsertAt(a, i);
        i := i + 1;
      }
      assert input[..a.Length] == input;
    }

    /** The ranking loop. */
    static method AssignRanks(a: array<SearchResult>)
      modifies a
      ensures a[..] == Ranked(old(a[..]))
    {
      var i := 0;
      while i < a.Length
        invariant 0 <= i <= a.Length
        invariant forall k :: 0 <= k < i ==> a[k] == old(a[k]).(rank := Some(k + 1))
        invariant forall k :: i <= k < a.Length ==> a[k] == old(a[k])
      {
        a[i] := a[i].(rank := Some(i + 1));
        i := i + 1;
      }
    }

    /** `analyze` on the list `a`, between the clock readings `t0` and `t1`; `fault` stands
        for an exception raised inside the try-block, before the list is touched. */
    method Analyze(a: array<SearchResult>, pq: QueryProcessor.ProcessedQuery, t0: real, t1: real, fault: Option<string>)
      returns (r: Result<seq<SearchResult>>)
      modifies base, base.metrics, a
      ensures a.Length == 0 ==> r == Ok([]) && Agent.CompletedTask(base, t0, t1)
      ensures a.Length > 0 && fault.None? ==>
        && a[..] == Analyzed(old(a[..]), pq.normalizedQuery, pq.keywords)
        && r == Ok(a[..])
        && Agent.CompletedTask(base, t0, t1)
      ensures a.Length > 0 && fault.Some? ==>
        && r == Err("Analysis failed: " + fault.value)
        && a[..] == old(a[..])
        && Agent.LeftTask(base, t0, Agent.Error)
    {
      var startTime := base.StartTask(t0);
      if a.Length == 0 {
        var _ := base.EndTask(startTime, t1);
        return Ok([]);
      }
      if fault.Some? {
        base.FailTask();
        return Err("Analysis failed: " + fault.value);
      }
      ScoreAll(a, pq.normalizedQuery, pq.keywords);
      SortInPlace(a);
      AssignRanks(a);
      var _ := base.EndTask(startTime, t1);
      r := Ok(a[..]);
    }
  }
}
