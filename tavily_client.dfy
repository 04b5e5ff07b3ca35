/**
 * The search client: one call per query, each failure isolated to its own
 * entry. The HTTP request is a backend parameter that answers a query and a
 * result limit with the raw items or an error message.
 */
module TavilyClient {
  import opened Wrappers
  import opened Sources

  /** One item of the search service's answer; `score` may be absent. */
  datatype RawItem = RawItem(title: string, url: string, content: string, score: Option<real>)

  /** What `search` resolves to: an object holding the mapped hits. */
  datatype SearchResponse = SearchResponse(results: seq<Hit>)

  type Backend = (string, int) -> Result<seq<RawItem>, string>

  /** `config.tavily_max_results || 5`: an absent or zero limit means 5. */
  function MaxResults(configured: Option<int>): (n: int)
    ensures configured.None? || configured.value == 0 ==> n == 5
    ensures configured.Some? && configured.value != 0 ==> n == configured.value
  {
    if configured.Some? && configured.value != 0 then configured.value else 5
  }

  /** `item.score || 0`: a missing score and a zero score both read as 0. */
  function MapItem(item: RawItem): (h: Hit)
    ensures h.title == item.title && h.url == item.url && h.content == item.content
    ensures h.score == (if item.score.Some? then item.score.value else 0.0)
  {
    Hit(item.title, item.url, item.content, if item.score.Some? && item.score.value != 0.0 then item.score.value else 0.0)
  }

  /** `search(query, maxResults)`: the mapped items, or the backend's error passed on. */
  function Search(backend: Backend, query: string, maxResults: int): (r: Result<SearchResponse, string>)
    ensures r.Failure? <==> backend(query, maxResults).Failure?
    ensures r.Failure? ==> r.error == backend(query, maxResults).error
    ensures r.Success? ==>
      |r.value.results| == |backend(query, maxResults).value|
      && forall k :: 0 <= k < |r.value.results| ==> r.value.results[k] == MapItem(backend(query, maxResults).value[k])
  {
    match backend(query, maxResults)
    case Success(items) => Success(SearchResponse(seq(|items|, k requires 0 <= k < |items| => MapItem(items[k]))))
    case Failure(e) => Failure(e)
  }

  /** The entry `multiSearch` records for one query. */
  function EntryFor(backend: Backend, query: string, maxResults: int): (e: QueryResult)
    ensures e.query == query
    ensures e.success <==> backend(query, maxResults).Success?
    ensures !e.success ==> e.results == [] && e.error == Some(backend(query, maxResults).error)
    ensures e.success ==>
      e.error.None?
      && |e.results| == |backend(query, maxResults).value|
      && forall k :: 0 <= k < |e.results| ==> e.results[k] == MapItem(backend(query, maxResults).value[k])
  {
    match Search(backend, query, maxResults)
    case Success(resp) => QueryResult(query, resp.results, true, None)
    case Failure(msg) => QueryResult(query, [], false, Some(msg))
  }

  /**
   * `multiSearch(queries, config)`: one entry per query, in order; a failing
   * query yields an unsuccessful entry with no results and the batch goes on.
   */
  method MultiSearch(backend: Backend, queries: seq<string>, configured: Option<int>) returns (results: seq<QueryResult>)
    ensures |results| == |queries|
    ensures forall k :: 0 <= k < |queries| ==> results[k] == EntryFor(backend, queries[k], MaxResults(configured))
    ensures forall k :: 0 <= k < |queries| ==> results[k].query == queries[k]
  {
    var maxResults := MaxResults(configured);
    results := [];
    var i := 0;
    while i < |queries|
      invariant 0 <= i <= |queries|
      invariant |results| == i
      invariant forall k :: 0 <= k < i ==> results[k] == EntryFor(backend, queries[k], maxResults)
    {
      var query := queries[i];
      match Search(backend, query, maxResults) {
        case Success(resp) =>
          results := results + [QueryResult(query, resp.results, true, None)];
        case Failure(msg) =>
          results := results + [QueryResult(query, [], false, Some(msg))];
      }
      i := i + 1;
    }
  }
}
