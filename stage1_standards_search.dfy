/**
 * Stage 1 of the standards pipeline: a configurable number of queries about
 * the standard code, one search each, and an aggregation that also counts
 * successful queries, raw results and removed duplicates.
 */
module Stage1StandardsSearch {
  import opened Wrappers
  import opened Text
  import opened Sorting
  import opened Sources
  import TavilyClient

  const BASE_SUFFIXES: seq<string> := [
    " standard specification technical requirements scope application",
    " equivalent Russia GOST ГОСТ ТУ standard comparison",
    " equivalent China GB standard comparison",
    " equivalent Europe EN DIN ISO standard comparison",
    " technical parameters pressure temperature dimensions materials metric",
    " standards comparison table cross-reference ГОСТ GB EN",
    " dimensions DN PN compatibility metric system",
    " materials steel grades GOST GB EN comparison",
    " datasheet technical documentation PDF specification"]

  const ADDITIONAL_SUFFIXES: seq<string> := [
    " testing methods inspection requirements NDT",
    " manufacturing process fabrication requirements",
    " safety factors design margins pressure vessels",
    " certification approval regulatory compliance",
    " case studies applications industry usage",
    " supplier availability lead time cost"]

  function Prefixed(code: string, suffixes: seq<string>): (qs: seq<string>)
    ensures |qs| == |suffixes|
    ensures forall k :: 0 <= k < |qs| ==> qs[k] == code + suffixes[k]
  {
    seq(|suffixes|, k requires 0 <= k < |suffixes| => code + suffixes[k])
  }

  /** `generateSearchQueries(standardCode, standardType, config)` */
  function GenerateSearchQueries(code: string, configured: Option<int>): (qs: seq<string>)
    ensures forall k :: 0 <= k < |qs| ==> StartsWith(qs[k], code)
  {
    var count := NumberOr(configured, 9);
    var all := Prefixed(code, BASE_SUFFIXES)
      + (if count > 9 then Take(Prefixed(code, ADDITIONAL_SUFFIXES), count - 9) else []);
    assert forall k :: 0 <= k < |all| ==> StartsWith(all[k], code) by {
      forall k | 0 <= k < |all| ensures StartsWith(all[k], code) {
        assert all[k][..|code|] == code;
      }
    }
    SliceTo(all, count)
  }

  /**
   * A positive count `c` gives `min(c, 15)` queries, the nine base queries
   * first and in order; an absent or zero count gives the nine base queries.
   */
  lemma {:induction false} QueryCountBounds(code: string, configured: Option<int>)
    ensures var c := NumberOr(configured, 9);
      var qs := GenerateSearchQueries(code, configured);
      (c > 0 ==> (|qs| == (if c < 15 then c else 15)
                  && forall k :: 0 <= k < |qs| && k < 9 ==> qs[k] == code + BASE_SUFFIXES[k]))
      && ((configured.None? || configured.value == 0) ==> qs == Prefixed(code, BASE_SUFFIXES))
  {
  }

  /**
   * A negative count is truthy, so it is kept, and `slice(0, c)` then drops
   * the last `-c` base queries instead of producing none.
   */
  lemma {:induction false} NegativeCountDropsFromEnd(code: string, c: int)
    requires -9 < c < 0
    ensures GenerateSearchQueries(code, Some(c)) == Prefixed(code, BASE_SUFFIXES)[..9 + c]
  {
  }

  datatype Aggregated = Aggregated(
    sources_count: nat,
    total_results: nat,
    total_results_from_queries: nat,
    successful_queries: nat,
    duplicates_removed: int,
    top_sources: seq<Source>,
    all_sources: seq<Source>)

  /**
   * `aggregateResults(searchResults)`: as in the steel pipeline, plus the
   * number of successful queries, the number of results they returned and
   * how many of those were duplicates.
   */
  method AggregateResults(searchResults: seq<QueryResult>) returns (agg: Aggregated)
    ensures agg.all_sources == SortDesc(DedupByUrl(Candidates(searchResults)), ScoreOf)
    ensures DistinctBy(agg.all_sources, UrlOf) && SortedDesc(agg.all_sources, ScoreOf)
    ensures agg.sources_count == agg.total_results == |agg.all_sources|
    ensures agg.successful_queries == SuccessCount(searchResults)
    ensures agg.total_results_from_queries == TotalResults(searchResults)
    ensures agg.duplicates_removed == agg.total_results_from_queries - agg.sources_count
    ensures agg.duplicates_removed >= 0
    ensures agg.top_sources == Take(agg.all_sources, 10)
  {
    var allResults: seq<Source> := [];
    var uniqueUrls: set<string> := {};
    var totalResultsFromQueries := 0;
    var successfulQueries := 0;
    var i := 0;
    while i < |searchResults|
      invariant 0 <= i <= |searchResults|
      invariant allResults == DedupByUrl(Candidates(searchResults[..i]))
      invariant uniqueUrls == UrlSet(allResults)
      invariant successfulQueries == SuccessCount(searchResults[..i])
      invariant totalResultsFromQueries == TotalResults(searchResults[..i])
    {
      var queryResult := searchResults[i];
      CandidatesSnoc(searchResults, i);
      if queryResult.success {
        successfulQueries := successfulQueries + 1;
        var resultsCount := |queryResult.results|;
        totalResultsFromQueries := totalResultsFromQueries + resultsCount;
        allResults, uniqueUrls := AddHits(allResults, uniqueUrls, Candidates(searchResults[..i]), queryResult.query, queryResult.results);
      } else {
        assert Candidates(searchResults[..i + 1]) == Candidates(searchResults[..i]);
      }
      i := i + 1;
    }
    assert searchResults[..i] == searchResults;
    CandidatesLength(searchResults);
    var sorted := SortDesc(allResults, ScoreOf);
    SortDescDistinct(allResults, ScoreOf, UrlOf);
    agg := Aggregated(|sorted|, |sorted|, totalResultsFromQueries, successfulQueries,
      totalResultsFromQueries - |sorted|, Take(sorted, 10), sorted);
  }

  /** `search_settings` of the standards configuration. */
  datatype SearchSettings = SearchSettings(tavily_queries_count: Option<int>, max_results_per_query: Option<int>)

  datatype SearchData = SearchData(
    standard_code: string,
    standard_type: string,
    queries_executed: nat,
    search_results: seq<QueryResult>,
    aggregated: Aggregated)

  /**
   * `execute(standardCode, standardType, config)`: the generated queries,
   * searched with `max_results_per_query || 5` results each, then aggregated.
   */
  method Execute(backend: TavilyClient.Backend, code: string, standardType: Option<string>, settings: SearchSettings)
    returns (data: SearchData)
    ensures data.standard_code == code
    ensures data.standard_type == if standardType.Some? && standardType.value != "" then standardType.value else "general"
    ensures data.queries_executed == |GenerateSearchQueries(code, settings.tavily_queries_count)|
    ensures |data.search_results| == data.queries_executed
    ensures forall k :: 0 <= k < |data.search_results| ==>
      data.search_results[k] == TavilyClient.EntryFor(backend, GenerateSearchQueries(code, settings.tavily_queries_count)[k],
        TavilyClient.MaxResults(settings.max_results_per_query))
    ensures data.aggregated.all_sources == SortDesc(DedupByUrl(Candidates(data.search_results)), ScoreOf)
    ensures data.aggregated.sources_count == data.aggregated.total_results == |data.aggregated.all_sources|
    ensures data.aggregated.successful_queries == SuccessCount(data.search_results)
    ensures data.aggregated.total_results_from_queries == TotalResults(data.search_results)
    ensures data.aggregated.duplicates_removed == data.aggregated.total_results_from_queries - data.aggregated.sources_count
    ensures data.aggregated.top_sources == Take(data.aggregated.all_sources, 10)
  {
    var queries := GenerateSearchQueries(code, settings.tavily_queries_count);
    var limit := TavilyClient.MaxResults(settings.max_results_per_query);
    var results := TavilyClient.MultiSearch(backend, queries, Some(limit));
    var agg := AggregateResults(results);
    data := SearchData(code, if standardType.Some? && standardType.value != "" then standardType.value else "general",
      |queries|, results, agg);
  }
}
