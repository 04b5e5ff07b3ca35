/**
 * Per-country relevance of a source, as the stage-2 strategies compute it
 * before building a prompt: a fixed number of points per occurrence of each
 * country keyword in the lower-cased title and content, and optionally a
 * bonus per keyword found in the title.
 */
module Relevance {
  import opened Text
  import opened Sorting

  /** A source together with its `relevance_score`. */
  datatype Scored<T> = Scored(item: T, relevance_score: int)

  function RelevanceOf<T>(s: Scored<T>): real {
    s.relevance_score as real
  }

  /** The keywords of the per-country prompt strategies; other countries have none. */
  function CountryKeywords(country: string): (ks: seq<string>)
    ensures NonEmptyKeywords(ks)
  {
    if country == "USA" then ["ASTM", "AISI", "UNS", "SAE", "USA", "American", "США", "американск"]
    else if country == "Russia" then ["GOST", "ГОСТ", "Russia", "Russian", "РФ", "российск", "отечественн"]
    else if country == "China" then ["GB", "China", "Chinese", "Китай", "китайск", "国标", "китайск"]
    else []
  }

  /**
   * The standard family the per-country prompts name: the three countries
   * that have keywords have their own family, any other is "International".
   */
  function TargetStandard(country: string): (r: string)
    ensures r == "International" <==> CountryKeywords(country) == []
    ensures country == "USA" ==> r == "ASTM, AISI, UNS, SAE"
    ensures country == "Russia" ==> r == "ГОСТ (GOST)"
    ensures country == "China" ==> r == "GB (国标)"
  {
    if country == "USA" then "ASTM, AISI, UNS, SAE"
    else if country == "Russia" then "ГОСТ (GOST)"
    else if country == "China" then "GB (国标)"
    else "International"
  }

  /** Points per keyword occurrence in the per-country prompt strategies. */
  const MENTION_WEIGHT: nat := 5

  /** Points per keyword found in the title in the per-country prompt strategies. */
  const TITLE_BONUS: nat := 20

  predicate NonEmptyKeywords(keywords: seq<string>) {
    forall k :: 0 <= k < |keywords| ==> |keywords[k]| > 0
  }

  /** `(title + ' ' + content).toLowerCase()` */
  function SearchText(title: string, content: string): string {
    ToLower(title + " " + content)
  }

  /** `weight` points per match of each lower-cased keyword in `text`. */
  function OccurrencePoints(text: string, keywords: seq<string>, weight: nat): (n: nat)
    requires NonEmptyKeywords(keywords)
    decreases |keywords|
  {
    if keywords == [] then 0
    else
      var k := keywords[|keywords| - 1];
      OccurrencePoints(text, keywords[..|keywords| - 1], weight) + weight * CountOccurrences(text, ToLower(k))
  }

  /** `bonus` points per keyword the lower-cased title contains. */
  function TitlePoints(titleLower: string, keywords: seq<string>, bonus: nat): (n: nat)
    decreases |keywords|
  {
    if keywords == [] then 0
    else
      var k := keywords[|keywords| - 1];
      TitlePoints(titleLower, keywords[..|keywords| - 1], bonus) + if Contains(titleLower, ToLower(k)) then bonus else 0
  }

  /** The first `forEach` of the scoring callback: points per keyword occurrence. */
  method AddOccurrencePoints(score: int, text: string, keywords: seq<string>, weight: nat) returns (r: int)
    requires NonEmptyKeywords(keywords)
    ensures r == score + OccurrencePoints(text, keywords, weight)
  {
    r := score;
    var i := 0;
    while i < |keywords|
      invariant 0 <= i <= |keywords|
      invariant r == score + OccurrencePoints(text, keywords[..i], weight)
    {
      assert keywords[..i + 1][..i] == keywords[..i];
      var matches := CountOccurrences(text, ToLower(keywords[i]));
      r := r + matches * weight;
      i := i + 1;
    }
    assert keywords[..i] == keywords;
  }

  /** The second `forEach`: a bonus per keyword found in the title. */
  method AddTitleBonus(score: int, title: string, keywords: seq<string>, bonus: nat) returns (r: int)
    ensures r == score + TitlePoints(ToLower(title), keywords, bonus)
  {
    r := score;
    var i := 0;
    while i < |keywords|
      invariant 0 <= i <= |keywords|
      invariant r == score + TitlePoints(ToLower(title), keywords[..i], bonus)
    {
      assert keywords[..i + 1][..i] == keywords[..i];
      if Contains(ToLower(title), ToLower(keywords[i])) {
        r := r + bonus;
      }
      i := i + 1;
    }
    assert keywords[..i] == keywords;
  }

  /** Some keyword occurs in the text. */
  predicate Mentions(text: string, keywords: seq<string>) {
    exists k :: 0 <= k < |keywords| && Contains(text, ToLower(keywords[k]))
  }

  /** A product with a positive factor is positive exactly when the other factor is. */
  lemma {:induction false} ProductPositive(a: nat, b: nat)
    requires a > 0
    ensures a * b > 0 <==> b > 0
  {
    if b > 0 {
      assert a * b >= b;
    }
  }

  /** With a positive weight, the occurrence points are positive exactly when some keyword occurs. */
  lemma {:induction false} OccurrencePointsPositive(text: string, keywords: seq<string>, weight: nat)
    requires NonEmptyKeywords(keywords) && weight > 0
    ensures OccurrencePoints(text, keywords, weight) > 0 <==> Mentions(text, keywords)
    decreases |keywords|
  {
    if keywords != [] {
      var init, k := keywords[..|keywords| - 1], keywords[|keywords| - 1];
      OccurrencePointsPositive(text, init, weight);
      CountPositiveIffContains(text, ToLower(k));
      ProductPositive(weight, CountOccurrences(text, ToLower(k)));
      if Mentions(text, keywords) {
        var j :| 0 <= j < |keywords| && Contains(text, ToLower(keywords[j]));
        if j < |init| {
          assert init[j] == keywords[j];
        }
      }
      if Mentions(text, init) {
        var j :| 0 <= j < |init| && Contains(text, ToLower(init[j]));
        assert keywords[j] == init[j];
      }
    }
  }

  /** Every title keyword also occurs in the searched text, which starts with the title. */
  lemma {:induction false} TitlePointsNeedMention(title: string, content: string, keywords: seq<string>, bonus: nat)
    requires TitlePoints(ToLower(title), keywords, bonus) > 0
    ensures Mentions(SearchText(title, content), keywords)
    decreases |keywords|
  {
    var init, k := keywords[..|keywords| - 1], keywords[|keywords| - 1];
    ToLowerAppend(title, " " + content);
    assert title + " " + content == title + (" " + content);
    if Contains(ToLower(title), ToLower(k)) {
      ContainsAppend(ToLower(title), ToLower(" " + content), ToLower(k));
      assert Contains(SearchText(title, content), ToLower(keywords[|keywords| - 1]));
    } else {
      TitlePointsNeedMention(title, content, init, bonus);
      var j :| 0 <= j < |init| && Contains(SearchText(title, content), ToLower(init[j]));
      assert keywords[j] == init[j];
    }
  }

  /**
   * With occurrence and title points, a source scores above zero exactly when
   * some keyword occurs in its title or content: the title bonus alone never
   * makes an unrelated source relevant.
   */
  lemma {:induction false} RelevancePositiveIff(title: string, content: string, keywords: seq<string>, weight: nat, bonus: nat)
    requires NonEmptyKeywords(keywords) && weight > 0
    ensures OccurrencePoints(SearchText(title, content), keywords, weight) + TitlePoints(ToLower(title), keywords, bonus) > 0
      <==> Mentions(SearchText(title, content), keywords)
  {
    OccurrencePointsPositive(SearchText(title, content), keywords, weight);
    if TitlePoints(ToLower(title), keywords, bonus) > 0 {
      TitlePointsNeedMention(title, content, keywords, bonus);
    }
  }

  /** `.filter(s => s.relevance_score > 0)` */
  function KeepPositive<T(==)>(s: seq<Scored<T>>): (r: seq<Scored<T>>)
    ensures |r| <= |s|
    ensures forall k :: 0 <= k < |r| ==> r[k].relevance_score > 0
    ensures forall k :: 0 <= k < |s| && s[k].relevance_score > 0 ==> s[k] in r
    ensures forall x :: x in r ==> x in s
    ensures forall x :: x in s ==> multiset(r)[x] == if x.relevance_score > 0 then multiset(s)[x] else 0
    decreases |s|
  {
    if s == [] then []
    else
      var rest := KeepPositive(s[1..]);
      var r := if s[0].relevance_score > 0 then [s[0]] + rest else rest;
      KeepPositiveStep(s, rest, r);
      r
  }

  /** The filter's recursive step keeps its contract. */
  lemma {:induction false} KeepPositiveStep<T>(s: seq<Scored<T>>, rest: seq<Scored<T>>, r: seq<Scored<T>>)
    requires s != []
    requires |rest| <= |s| - 1
    requires forall k :: 0 <= k < |rest| ==> rest[k].relevance_score > 0
    requires forall x :: x in s[1..] ==> multiset(rest)[x] == if x.relevance_score > 0 then multiset(s[1..])[x] else 0
    requires forall x :: x in rest ==> x in s[1..]
    requires r == if s[0].relevance_score > 0 then [s[0]] + rest else rest
    ensures |r| <= |s|
    ensures forall k :: 0 <= k < |r| ==> r[k].relevance_score > 0
    ensures forall k :: 0 <= k < |s| && s[k].relevance_score > 0 ==> s[k] in r
    ensures forall x :: x in r ==> x in s
    ensures forall x :: x in s ==> multiset(r)[x] == if x.relevance_score > 0 then multiset(s)[x] else 0
  {
    assert s == [s[0]] + s[1..];
    assert multiset(s) == multiset{s[0]} + multiset(s[1..]);
    if s[0].relevance_score > 0 {
      assert multiset(r) == multiset{s[0]} + multiset(rest);
    }
    forall x | x in s
      ensures multiset(r)[x] == if x.relevance_score > 0 then multiset(s)[x] else 0
    {
      if x != s[0] {
        assert x in s[1..];
      } else if x !in s[1..] {
        assert multiset(s[1..])[x] == 0;
        assert x !in rest;
      }
    }
    forall k | 0 <= k < |s| && s[k].relevance_score > 0 ensures s[k] in r {
      assert multiset(r)[s[k]] == multiset(s)[s[k]] > 0;
    }
  }

  /**
   * The filter distributes over concatenation; with the one-element case
   * this fixes the result as the positive sources in their original order.
   */
  lemma {:induction false} KeepPositiveAppend<T>(a: seq<Scored<T>>, b: seq<Scored<T>>)
    ensures KeepPositive(a + b) == KeepPositive(a) + KeepPositive(b)
    decreases |a|
  {
    if a != [] {
      var ab := a + b;
      assert ab[0] == a[0] && ab[1..] == a[1..] + b;
      var head := if a[0].relevance_score > 0 then [a[0]] else [];
      KeepPositiveAppend(a[1..], b);
      KeepPositiveUnfold(ab);
      KeepPositiveUnfold(a);
      ConcatAssoc(head, KeepPositive(a[1..]), KeepPositive(b));
    } else {
      assert a + b == b;
    }
  }

  lemma {:induction false} ConcatAssoc<T>(x: seq<T>, y: seq<T>, z: seq<T>)
    ensures x + (y + z) == (x + y) + z
  {
  }

  /** One step of the filter, read off the front of the list. */
  lemma {:induction false} KeepPositiveUnfold<T>(s: seq<Scored<T>>)
    requires s != []
    ensures KeepPositive(s) == (if s[0].relevance_score > 0 then [s[0]] else []) + KeepPositive(s[1..])
  {
  }

  lemma {:induction false} KeepPositiveNone<T>(s: seq<Scored<T>>)
    requires forall k :: 0 <= k < |s| ==> s[k].relevance_score <= 0
    ensures KeepPositive(s) == []
    decreases |s|
  {
    if s != [] {
      KeepPositiveNone(s[1..]);
    }
  }

  lemma {:induction false} SortedDescTail<T>(s: seq<Scored<T>>)
    requires |s| > 0 && SortedDesc(s, RelevanceOf)
    ensures SortedDesc(s[1..], RelevanceOf)
    ensures forall k :: 0 <= k < |s[1..]| ==> s[1..][k].relevance_score <= s[0].relevance_score
  {
    forall i, j | 0 <= i < j < |s[1..]| ensures RelevanceOf(s[1..][i]) >= RelevanceOf(s[1..][j]) {
      assert s[1..][i] == s[i + 1] && s[1..][j] == s[j + 1];
    }
    forall k | 0 <= k < |s[1..]| ensures s[1..][k].relevance_score <= s[0].relevance_score {
      assert s[1..][k] == s[k + 1];
      assert RelevanceOf(s[0]) >= RelevanceOf(s[k + 1]);
    }
  }

  /** Filtering a list sorted by descending relevance keeps a prefix of it, still sorted. */
  lemma {:induction false} KeepPositivePrefix<T>(s: seq<Scored<T>>)
    requires SortedDesc(s, RelevanceOf)
    ensures KeepPositive(s) == s[..|KeepPositive(s)|]
    ensures SortedDesc(KeepPositive(s), RelevanceOf)
    decreases |s|
  {
    if s != [] {
      var tail := s[1..];
      SortedDescTail(s);
      KeepPositivePrefix(tail);
      var rest := KeepPositive(tail);
      if s[0].relevance_score <= 0 {
        KeepPositiveNone(tail);
        assert KeepPositive(s) == [];
      } else {
        assert KeepPositive(s) == [s[0]] + rest;
        ConsPrefix(s, rest);
        SortedDescPrefix(s, |rest| + 1);
      }
    }
  }

  lemma {:induction false} ConsPrefix<T>(s: seq<T>, rest: seq<T>)
    requires |s| > 0 && |rest| <= |s| - 1 && rest == s[1..][..|rest|]
    ensures [s[0]] + rest == s[..|rest| + 1]
  {
    forall k | 0 <= k < |rest| + 1 ensures ([s[0]] + rest)[k] == s[k] {
      if k > 0 {
        assert rest[k - 1] == s[1..][k - 1];
      }
    }
  }

  lemma {:induction false} SortedDescPrefix<T>(s: seq<Scored<T>>, n: nat)
    requires n <= |s| && SortedDesc(s, RelevanceOf)
    ensures SortedDesc(s[..n], RelevanceOf)
  {
    forall i, j | 0 <= i < j < n ensures RelevanceOf(s[..n][i]) >= RelevanceOf(s[..n][j]) {
      assert s[..n][i] == s[i] && s[..n][j] == s[j];
    }
  }

  /**
   * The relevance of one source: `weight` points per keyword occurrence in
   * its lower-cased title and content, plus `bonus` per keyword in its title.
   */
  function Score(title: string, content: string, keywords: seq<string>, weight: nat, bonus: nat): int
    requires NonEmptyKeywords(keywords)
  {
    OccurrencePoints(SearchText(title, content), keywords, weight) + TitlePoints(ToLower(title), keywords, bonus)
  }

  /** `sources.map(source => ({ ...source, relevance_score }))` */
  function ScoreAll<T>(sources: seq<T>, titleOf: T -> string, contentOf: T -> string,
                       keywords: seq<string>, weight: nat, bonus: nat): (r: seq<Scored<T>>)
    requires NonEmptyKeywords(keywords)
    ensures |r| == |sources|
    ensures forall k :: 0 <= k < |r| ==>
      r[k] == Scored(sources[k], Score(titleOf(sources[k]), contentOf(sources[k]), keywords, weight, bonus))
  {
    seq(|sources|, k requires 0 <= k < |sources| =>
      Scored(sources[k], Score(titleOf(sources[k]), contentOf(sources[k]), keywords, weight, bonus)))
  }

  /** With no title bonus the title loop adds nothing. */
  lemma {:induction false} NoTitleBonus(titleLower: string, keywords: seq<string>)
    ensures TitlePoints(titleLower, keywords, 0) == 0
    decreases |keywords|
  {
    if keywords != [] {
      NoTitleBonus(titleLower, keywords[..|keywords| - 1]);
    }
  }

  /**
   * The `map` callback run over every source: the occurrence loop, then,
   * in the strategies that have one, the title-bonus loop (`bonus > 0`).
   */
  method ScoreSources<T>(sources: seq<T>, titleOf: T -> string, contentOf: T -> string,
                         keywords: seq<string>, weight: nat, bonus: nat) returns (scored: seq<Scored<T>>)
    requires NonEmptyKeywords(keywords)
    ensures scored == ScoreAll(sources, titleOf, contentOf, keywords, weight, bonus)
  {
    scored := [];
    var i := 0;
    while i < |sources|
      invariant 0 <= i <= |sources|
      invariant scored == ScoreAll(sources[..i], titleOf, contentOf, keywords, weight, bonus)
    {
      var source := sources[i];
      var title := titleOf(source);
      var score := AddOccurrencePoints(0, SearchText(title, contentOf(source)), keywords, weight);
      if bonus > 0 {
        score := AddTitleBonus(score, title, keywords, bonus);
      } else {
        NoTitleBonus(ToLower(title), keywords);
      }
      scored := scored + [Scored(source, score)];
      assert sources[..i + 1] == sources[..i] + [source];
      i := i + 1;
    }
    assert sources[..i] == sources;
  }

  /**
   * Every scored source is relevant (score above zero) exactly when some
   * keyword occurs in its title or content, whatever the title bonus.
   */
  lemma {:induction false} ScoreAllRelevantIff<T>(sources: seq<T>, titleOf: T -> string, contentOf: T -> string,
                               keywords: seq<string>, weight: nat, bonus: nat, k: nat)
    requires NonEmptyKeywords(keywords) && weight > 0 && k < |sources|
    ensures ScoreAll(sources, titleOf, contentOf, keywords, weight, bonus)[k].relevance_score > 0
      <==> Mentions(SearchText(titleOf(sources[k]), contentOf(sources[k])), keywords)
  {
    RelevancePositiveIff(titleOf(sources[k]), contentOf(sources[k]), keywords, weight, bonus);
  }

  /** Every source the filter keeps mentions one of the keywords. */
  lemma {:induction false} KeptMention<T>(sources: seq<T>, titleOf: T -> string, contentOf: T -> string,
                                             keywords: seq<string>, weight: nat, bonus: nat)
    requires NonEmptyKeywords(keywords) && weight > 0
    ensures forall x :: x in KeepRelevant(ScoreAll(sources, titleOf, contentOf, keywords, weight, bonus)) ==>
      Mentions(SearchText(titleOf(x.item), contentOf(x.item)), keywords)
  {
    var scored := ScoreAll(sources, titleOf, contentOf, keywords, weight, bonus);
    forall x | x in KeepRelevant(scored)
      ensures Mentions(SearchText(titleOf(x.item), contentOf(x.item)), keywords)
    {
      var k :| 0 <= k < |scored| && scored[k] == x;
      ScoreAllRelevantIff(sources, titleOf, contentOf, keywords, weight, bonus, k);
    }
  }

  /** Items drawn, in order, from a prefix of sources that all mention a keyword mention one too. */
  lemma {:induction false} PrefixMentions<T>(ranked: seq<Scored<T>>, items: seq<T>, titleOf: T -> string, contentOf: T -> string,
                                             keywords: seq<string>)
    requires forall x :: x in ranked ==> Mentions(SearchText(titleOf(x.item), contentOf(x.item)), keywords)
    requires |items| <= |ranked| && forall k :: 0 <= k < |items| ==> items[k] == ranked[k].item
    ensures forall s :: s in items ==> Mentions(SearchText(titleOf(s), contentOf(s)), keywords)
  {
    forall s | s in items ensures Mentions(SearchText(titleOf(s), contentOf(s)), keywords) {
      var k :| 0 <= k < |items| && items[k] == s;
      assert ranked[k] in ranked;
    }
  }

  /** A country without keywords scores every source 0. */
  lemma {:induction false} NoKeywordsNoRelevance<T>(sources: seq<T>, titleOf: T -> string, contentOf: T -> string,
                                 weight: nat, bonus: nat)
    ensures forall k :: 0 <= k < |sources| ==>
      ScoreAll(sources, titleOf, contentOf, [], weight, bonus)[k].relevance_score == 0
  {
  }

  /** The items of scored sources, in order. */
  function Items<T>(s: seq<Scored<T>>): (r: seq<T>)
    ensures |r| == |s| && forall k :: 0 <= k < |s| ==> r[k] == s[k].item
  {
    seq(|s|, k requires 0 <= k < |s| => s[k].item)
  }

  /**
   * `scored.sort((a, b) => b.relevance_score - a.relevance_score).filter(s => s.relevance_score > 0)`:
   * exactly the relevant sources, best first, in a prefix of the sorted list.
   */
  function KeepRelevant<T(==)>(scored: seq<Scored<T>>): (r: seq<Scored<T>>)
    ensures |r| <= |scored|
    ensures r == SortDesc(scored, RelevanceOf)[..|r|]
    ensures SortedDesc(r, RelevanceOf)
    ensures forall k :: 0 <= k < |r| ==> r[k].relevance_score > 0
    ensures forall k :: 0 <= k < |scored| && scored[k].relevance_score > 0 ==> scored[k] in r
    ensures forall x :: x in r ==> x in scored
    ensures forall x :: x in scored ==> multiset(r)[x] == if x.relevance_score > 0 then multiset(scored)[x] else 0
    ensures |r| < |scored| ==> SortDesc(scored, RelevanceOf)[|r|].relevance_score <= 0
  {
    var sorted := SortDesc(scored, RelevanceOf);
    KeepPositivePrefix(sorted);
    PositivePrefixEnds(sorted);
    SortedKeepsRelevant(scored);
    KeepPositive(sorted)
  }

  /** The entry right after the kept prefix of a sorted list is not relevant. */
  lemma {:induction false} PositivePrefixEnds<T>(s: seq<Scored<T>>)
    requires SortedDesc(s, RelevanceOf)
    ensures |KeepPositive(s)| < |s| ==> s[|KeepPositive(s)|].relevance_score <= 0
  {
    var r := KeepPositive(s);
    KeepPositivePrefix(s);
    if |r| < |s| {
      MultisetAt(s, |r|);
      assert multiset(s)[s[|r|]] != multiset(r)[s[|r|]];
    }
  }

  /** The element at `n` occurs once more in the whole list than in the part before `n`. */
  lemma {:induction false} MultisetAt<T>(s: seq<T>, n: nat)
    requires n < |s|
    ensures multiset(s)[s[n]] > multiset(s[..n])[s[n]]
  {
    assert s == s[..n] + s[n..];
    assert multiset(s) == multiset(s[..n]) + multiset(s[n..]);
    assert s[n..][0] == s[n];
  }

  lemma {:induction false} SortedKeepsRelevant<T>(scored: seq<Scored<T>>)
    ensures forall k :: 0 <= k < |scored| && scored[k].relevance_score > 0 ==>
      scored[k] in KeepPositive(SortDesc(scored, RelevanceOf))
  {
    var sorted := SortDesc(scored, RelevanceOf);
    forall k | 0 <= k < |scored| && scored[k].relevance_score > 0
      ensures scored[k] in KeepPositive(sorted)
    {
      assert scored[k] in multiset(sorted);
      var j :| 0 <= j < |sorted| && sorted[j] == scored[k];
    }
  }
}
