/**
 * Search hits and the aggregated sources built from them, with the
 * specification of the stage-1 aggregation: every hit of every successful
 * query in order, then the first occurrence of each URL.
 */
module Sources {
  import opened Wrappers
  import opened Sorting

  /** One search hit, as `TavilyClient.search` maps it. */
  datatype Hit = Hit(title: string, url: string, content: string, score: real)

  /** One entry of `multiSearch`'s answer. */
  datatype QueryResult = QueryResult(query: string, results: seq<Hit>, success: bool, error: Option<string>)

  /** An aggregated source: a hit together with the query that found it. */
  datatype Source = Source(query: string, title: string, url: string, content: string, score: real)

  function ScoreOf(s: Source): real { s.score }
  function UrlOf(s: Source): string { s.url }
  function TitleOf(s: Source): string { s.title }
  function ContentOf(s: Source): string { s.content }

  function Tagged(query: string, h: Hit): Source {
    Source(query, h.title, h.url, h.content, h.score)
  }

  function TagAll(query: string, hits: seq<Hit>): (r: seq<Source>)
    ensures |r| == |hits|
    ensures forall k :: 0 <= k < |r| ==> r[k] == Tagged(query, hits[k])
  {
    seq(|hits|, k requires 0 <= k < |hits| => Tagged(query, hits[k]))
  }

  /** Every hit of every successful query, in query order and then hit order. */
  function Candidates(qs: seq<QueryResult>): seq<Source>
    decreases |qs|
  {
    if qs == [] then []
    else
      var last := qs[|qs| - 1];
      Candidates(qs[..|qs| - 1]) + (if last.success then TagAll(last.query, last.results) else [])
  }

  /** Number of hits over the successful queries. */
  function TotalResults(qs: seq<QueryResult>): nat
    decreases |qs|
  {
    if qs == [] then 0
    else
      var last := qs[|qs| - 1];
      TotalResults(qs[..|qs| - 1]) + (if last.success then |last.results| else 0)
  }

  /** Number of successful queries. */
  function SuccessCount(qs: seq<QueryResult>): nat
    decreases |qs|
  {
    if qs == [] then 0
    else SuccessCount(qs[..|qs| - 1]) + (if qs[|qs| - 1].success then 1 else 0)
  }

  /** There is one candidate per hit of a successful query. */
  lemma {:induction false} CandidatesLength(qs: seq<QueryResult>)
    ensures |Candidates(qs)| == TotalResults(qs)
    decreases |qs|
  {
    if qs != [] {
      CandidatesLength(qs[..|qs| - 1]);
    }
  }

  /** A failed query contributes no candidate, whatever it carries. */
  lemma {:induction false} FailedQueryContributesNothing(qs: seq<QueryResult>, failed: QueryResult)
    requires !failed.success
    ensures Candidates(qs + [failed]) == Candidates(qs)
    ensures TotalResults(qs + [failed]) == TotalResults(qs)
  {
    assert (qs + [failed])[..|qs|] == qs;
  }

  function UrlSet(s: seq<Source>): set<string> {
    set k | 0 <= k < |s| :: s[k].url
  }

  lemma {:induction false} UrlSetSnoc(s: seq<Source>, x: Source)
    ensures UrlSet(s + [x]) == UrlSet(s) + {x.url}
  {
    forall u | u in UrlSet(s + [x]) ensures u in UrlSet(s) + {x.url} {
      var k :| 0 <= k < |s| + 1 && (s + [x])[k].url == u;
      if k < |s| {
        assert (s + [x])[k] == s[k];
      }
    }
    forall u | u in UrlSet(s) ensures u in UrlSet(s + [x]) {
      var k :| 0 <= k < |s| && s[k].url == u;
      assert (s + [x])[k] == s[k];
    }
    assert (s + [x])[|s|] == x;
  }

  /** The first source of each URL, in order of appearance. */
  function DedupByUrl(s: seq<Source>): (r: seq<Source>)
    ensures |r| <= |s|
    ensures DistinctBy(r, UrlOf)
    ensures UrlSet(r) == UrlSet(s)
    decreases |s|
  {
    if s == [] then []
    else
      var init, x := s[..|s| - 1], s[|s| - 1];
      var d := DedupByUrl(init);
      assert s == init + [x];
      UrlSetSnoc(init, x);
      if x.url in UrlSet(d) then d
      else
        UrlSetSnoc(d, x);
        d + [x]
  }

  lemma {:induction false} DedupSnoc(s: seq<Source>, x: Source)
    ensures DedupByUrl(s + [x])
      == if x.url in UrlSet(DedupByUrl(s)) then DedupByUrl(s) else DedupByUrl(s) + [x]
  {
    assert (s + [x])[..|s|] == s;
  }

  /**
   * The `forEach` over one successful query's hits in `aggregateResults`:
   * each hit whose URL is not yet in `uniqueUrls` is tagged with the query
   * and pushed.
   */
  method AddHits(allResults: seq<Source>, uniqueUrls: set<string>, ghost before: seq<Source>, query: string, hits: seq<Hit>)
    returns (all: seq<Source>, urls: set<string>)
    requires allResults == DedupByUrl(before) && uniqueUrls == UrlSet(allResults)
    ensures all == DedupByUrl(before + TagAll(query, hits))
    ensures urls == UrlSet(all)
  {
    all, urls := allResults, uniqueUrls;
    assert before + TagAll(query, hits[..0]) == before;
    var j := 0;
    while j < |hits|
      invariant 0 <= j <= |hits|
      invariant all == DedupByUrl(before + TagAll(query, hits[..j]))
      invariant urls == UrlSet(all)
    {
      var hit := hits[j];
      var source := Source(query, hit.title, hit.url, hit.content, hit.score);
      ghost var seen := before + TagAll(query, hits[..j]);
      TagAllSnoc(query, hits, j);
      assert before + TagAll(query, hits[..j + 1]) == seen + [source];
      DedupSnoc(seen, source);
      if hit.url !in urls {
        urls := urls + {hit.url};
        UrlSetSnoc(all, source);
        all := all + [source];
      }
      j := j + 1;
    }
    assert hits[..j] == hits;
  }

  lemma {:induction false} TagAllSnoc(query: string, hits: seq<Hit>, j: nat)
    requires j < |hits|
    ensures TagAll(query, hits[..j + 1]) == TagAll(query, hits[..j]) + [Tagged(query, hits[j])]
  {
  }

  lemma {:induction false} CandidatesSnoc(qs: seq<QueryResult>, i: nat)
    requires i < |qs|
    ensures Candidates(qs[..i + 1])
      == Candidates(qs[..i]) + (if qs[i].success then TagAll(qs[i].query, qs[i].results) else [])
    ensures TotalResults(qs[..i + 1]) == TotalResults(qs[..i]) + (if qs[i].success then |qs[i].results| else 0)
    ensures SuccessCount(qs[..i + 1]) == SuccessCount(qs[..i]) + (if qs[i].success then 1 else 0)
  {
    assert qs[..i + 1][..i] == qs[..i];
  }

  /** Index of the first source with URL `u`. */
  function FirstIndex(s: seq<Source>, u: string): (i: nat)
    requires u in UrlSet(s)
    ensures i < |s| && s[i].url == u
    ensures forall j :: 0 <= j < i ==> s[j].url != u
  {
    if s[0].url == u then 0
    else
      assert u in UrlSet(s[1..]) by {
        var k :| 0 <= k < |s| && s[k].url == u;
        assert s[1..][k - 1] == s[k];
      }
      1 + FirstIndex(s[1..], u)
  }

  lemma {:induction false} FirstIndexExtend(s: seq<Source>, x: Source, u: string)
    requires u in UrlSet(s)
    ensures u in UrlSet(s + [x]) && FirstIndex(s + [x], u) == FirstIndex(s, u)
  {
    var i := FirstIndex(s, u);
    assert (s + [x])[i] == s[i];
    var j := FirstIndex(s + [x], u);
    assert j <= i;
    assert (s + [x])[j] == s[j] by { assert j < |s|; }
  }

  lemma {:induction false} FirstIndexLast(s: seq<Source>, x: Source)
    requires x.url !in UrlSet(s)
    ensures x.url in UrlSet(s + [x]) && FirstIndex(s + [x], x.url) == |s|
  {
    assert (s + [x])[|s|] == x;
    forall j | 0 <= j < |s| ensures (s + [x])[j].url != x.url {
      assert (s + [x])[j] == s[j];
      assert s[j].url in UrlSet(s);
    }
  }

  /**
   * De-duplication keeps the first occurrence: each kept source is the
   * earliest source in the input with its URL.
   */
  lemma {:induction false} DedupKeepsFirst(s: seq<Source>)
    ensures forall k :: 0 <= k < |DedupByUrl(s)| ==>
      DedupByUrl(s)[k].url in UrlSet(s) && DedupByUrl(s)[k] == s[FirstIndex(s, DedupByUrl(s)[k].url)]
    decreases |s|
  {
    if s != [] {
      var init, x := s[..|s| - 1], s[|s| - 1];
      assert s == init + [x];
      var d := DedupByUrl(init);
      DedupKeepsFirst(init);
      forall k | 0 <= k < |d| ensures d[k].url in UrlSet(s) && d[k] == s[FirstIndex(s, d[k].url)] {
        FirstIndexExtend(init, x, d[k].url);
      }
      if x.url !in UrlSet(d) {
        FirstIndexLast(init, x);
      }
    }
  }
}
