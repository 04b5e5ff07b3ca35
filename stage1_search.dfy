/**
 * Stage 1 of the steel pipeline: nine fixed queries about the input grade,
 * one search each, and the aggregation of the answers into unique sources
 * ranked by relevance.
 */
module Stage1Search {
  import opened Wrappers
  import opened Text
  import opened Sorting
  import opened Sources
  import TavilyClient

  /** The nine queries, each starting with the grade. */
  function GenerateSearchQueries(grade: string): (qs: seq<string>)
    ensures |qs| == 9
    ensures forall k :: 0 <= k < |qs| ==> StartsWith(qs[k], grade)
  {
    var suffixes := [
      " steel properties chemical composition mechanical properties",
      " equivalent USA AISI ASTM",
      " equivalent Russia GOST ГОСТ",
      " equivalent China GB",
      " chemical composition C Cr Ni Mn",
      " mechanical properties yield strength tensile strength",
      " carbon equivalent weldability",
      " standard specification datasheet",
      " steel grade comparison table"];
    seq(9, k requires 0 <= k < 9 => grade + suffixes[k])
  }

  datatype Aggregated = Aggregated(
    sources_count: nat,
    total_results: nat,
    top_sources: seq<Source>,
    all_sources: seq<Source>)

  /** The aggregation the loop in `aggregateResults` computes, as a function of its input. */
  function Aggregate(qs: seq<QueryResult>): seq<Source> {
    SortDesc(DedupByUrl(Candidates(qs)), ScoreOf)
  }

  /**
   * `aggregateResults(searchResults)`: the hits of the successful queries, the
   * first occurrence of each URL kept, sorted by descending score, with the
   * first ten as `top_sources`.
   */
  method AggregateResults(searchResults: seq<QueryResult>) returns (agg: Aggregated)
    ensures agg.all_sources == Aggregate(searchResults)
    ensures DistinctBy(agg.all_sources, UrlOf)
    ensures SortedDesc(agg.all_sources, ScoreOf)
    ensures UrlSet(agg.all_sources) == UrlSet(Candidates(searchResults))
    ensures agg.sources_count == agg.total_results == |agg.all_sources|
    ensures agg.top_sources == Take(agg.all_sources, 10)
  {
    var allResults: seq<Source> := [];
    var uniqueUrls: set<string> := {};
    var i := 0;
    while i < |searchResults|
      invariant 0 <= i <= |searchResults|
      invariant allResults == DedupByUrl(Candidates(searchResults[..i]))
      invariant uniqueUrls == UrlSet(allResults)
    {
      var queryResult := searchResults[i];
      CandidatesSnoc(searchResults, i);
      if queryResult.success {
        allResults, uniqueUrls := AddHits(allResults, uniqueUrls, Candidates(searchResults[..i]), queryResult.query, queryResult.results);
      } else {
        assert Candidates(searchResults[..i + 1]) == Candidates(searchResults[..i]);
      }
      i := i + 1;
    }
    assert searchResults[..i] == searchResults;
    var sorted := SortDesc(allResults, ScoreOf);
    SortDescDistinct(allResults, ScoreOf, UrlOf);
    agg := Aggregated(|sorted|, |sorted|, Take(sorted, 10), sorted);
    SortedUrls(allResults);
  }

  /** Sorting keeps the set of URLs. */
  lemma {:induction false} SortedUrls(s: seq<Source>)
    ensures UrlSet(SortDesc(s, ScoreOf)) == UrlSet(s)
  {
    var r := SortDesc(s, ScoreOf);
    forall u | u in UrlSet(r) ensures u in UrlSet(s) {
      var k :| 0 <= k < |r| && r[k].url == u;
      assert r[k] in multiset(r);
      var j :| 0 <= j < |s| && s[j] == r[k];
    }
    forall u | u in UrlSet(s) ensures u in UrlSet(r) {
      var k :| 0 <= k < |s| && s[k].url == u;
      assert s[k] in multiset(s);
      var j :| 0 <= j < |r| && r[j] == s[k];
    }
  }

  /** What stage 1 hands to the later stages. */
  datatype SearchData = SearchData(
    steel_grade: string,
    queries_executed: nat,
    search_results: seq<QueryResult>,
    aggregated: Aggregated,
    sources_count: nat,
    total_results: nat)

  /** `execute(steelGrade, config)`: the nine queries, searched with the default limit, then aggregated. */
  method Execute(backend: TavilyClient.Backend, grade: string) returns (data: SearchData)
    ensures data.steel_grade == grade && data.queries_executed == 9
    ensures |data.search_results| == 9
    ensures forall k :: 0 <= k < 9 ==> data.search_results[k].query == GenerateSearchQueries(grade)[k]
    ensures forall k :: 0 <= k < 9 ==>
      data.search_results[k] == TavilyClient.EntryFor(backend, GenerateSearchQueries(grade)[k], TavilyClient.MaxResults(None))
    ensures data.aggregated.all_sources == Aggregate(data.search_results)
    ensures data.aggregated.top_sources == Take(data.aggregated.all_sources, 10)
    ensures data.aggregated.sources_count == data.aggregated.total_results == |data.aggregated.all_sources|
    ensures data.sources_count == data.total_results == |data.aggregated.all_sources|
  {
    var queries := GenerateSearchQueries(grade);
    var results := TavilyClient.MultiSearch(backend, queries, None);
    var agg := AggregateResults(results);
    data := SearchData(grade, |queries|, results, agg, agg.sources_count, agg.total_results);
  }
}
