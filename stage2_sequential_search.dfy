/**
 * Stage 2 by sequential search: each foreign analog is looked up on its own,
 * directly from the input grade and then across from the other country's
 * analog, and the better-filled of the two variants is kept.
 */
module Stage2SequentialSearch {
  import opened Wrappers
  import opened Text
  import opened Sorting
  import opened Model
  import opened Sources
  import opened Relevance

  /** This strategy's own keyword lists; other countries have none. */
  function Keywords(country: string): (ks: seq<string>)
    ensures NonEmptyKeywords(ks)
  {
    if country == "Russia" then ["GOST", "ГОСТ", "Russia", "Russian", "РФ", "российск"]
    else if country == "China" then ["GB", "China", "Chinese", "Китай", "китайск", "国标"]
    else if country == "USA" then ["ASTM", "AISI", "UNS", "USA", "American", "США", "американск"]
    else []
  }

  /** Points per keyword occurrence; there is no title bonus here. */
  const OCCURRENCE_WEIGHT: nat := 10

  /** Below this many sources, irrelevant ones are kept too. */
  const KEEP_ALL_BELOW: nat := 10

  /** How many of the filtered sources go into a prompt. */
  const PROMPT_SOURCES: nat := 20

  /** The result of `filterSourcesByCountry` for already scored sources. */
  function Filter(scored: seq<Scored<Source>>): seq<Scored<Source>> {
    if |scored| < KEEP_ALL_BELOW then SortDesc(scored, RelevanceOf) else KeepRelevant(scored)
  }

  /**
   * `filterSourcesByCountry(searchData, targetCountry)`: the
   * `aggregated_data.top_sources` (none when missing), scored and sorted by
   * descending relevance; with ten or more sources only the relevant ones
   * are kept.
   */
  method FilterSourcesByCountry(topSources: Option<seq<Source>>, country: string) returns (r: seq<Scored<Source>>)
    ensures r == Filter(ScoreAll(topSources.GetOr([]), TitleOf, ContentOf, Keywords(country), OCCURRENCE_WEIGHT, 0))
  {
    var allSources := topSources.GetOr([]);
    var scored := ScoreSources(allSources, TitleOf, ContentOf, Keywords(country), OCCURRENCE_WEIGHT, 0);
    r := Filter(scored);
  }

  /** With fewer than ten sources, all are kept, reordered by descending relevance. */
  lemma {:induction false} FilterFewKeepsAll(scored: seq<Scored<Source>>)
    requires |scored| < KEEP_ALL_BELOW
    ensures multiset(Filter(scored)) == multiset(scored)
    ensures SortedDesc(Filter(scored), RelevanceOf)
  {
  }

  /**
   * With ten or more sources, the result is the relevant ones: a prefix of
   * the sorted list, sorted, every member relevant and every relevant source
   * present.
   */
  lemma {:induction false} FilterManyKeepsRelevant(scored: seq<Scored<Source>>)
    requires |scored| >= KEEP_ALL_BELOW
    ensures var r := Filter(scored);
      && |r| <= |scored|
      && r == SortDesc(scored, RelevanceOf)[..|r|]
      && SortedDesc(r, RelevanceOf)
      && (forall k :: 0 <= k < |r| ==> r[k].relevance_score > 0)
      && (forall k :: 0 <= k < |scored| && scored[k].relevance_score > 0 ==> scored[k] in r)
      && (forall x :: x in scored ==> multiset(r)[x] == if x.relevance_score > 0 then multiset(scored)[x] else 0)
      && (|r| < |scored| ==> SortDesc(scored, RelevanceOf)[|r|].relevance_score <= 0)
  {
  }

  /** The sources the prompt lists. */
  function PromptSources(filtered: seq<Scored<Source>>): (r: seq<Scored<Source>>)
    ensures |r| <= PROMPT_SOURCES && |r| <= |filtered| && r == filtered[..|r|]
  {
    Take(filtered, PROMPT_SOURCES)
  }

  /** `x && x !== 'null' && x !== '0'` */
  predicate Filled(v: Val) {
    Truthy(v) && v != Str("null") && v != Str("0")
  }

  /** `variant.standard && variant.standard !== 'null'` */
  predicate FilledText(o: Option<string>) {
    Present(o) && o.value != "null"
  }

  function Min(a: int, b: int): int { if a < b then a else b }

  /** 10 points for each of the four mechanical properties that is filled in. */
  function MechanicalPoints(mechanical: Option<map<string, Val>>): (n: nat)
    ensures n <= 40 && n % 10 == 0
  {
    var mp := mechanical.GetOr(map[]);
    PropertyPoints(mp, "yield_strength") + PropertyPoints(mp, "tensile_strength")
    + PropertyPoints(mp, "elongation") + PropertyPoints(mp, "impact_toughness")
  }

  /** 10 points for one mechanical property that is filled in. */
  function PropertyPoints(mp: map<string, Val>, name: string): nat {
    if name in mp && Filled(mp[name]) then 10 else 0
  }

  /** Three points per element, at most 30. */
  function CompositionPoints(composition: Option<Composition>): (n: nat)
    ensures n <= 30
  {
    Min(3 * |composition.GetOr(map[]).Keys|, 30)
  }

  /** Two points per listed source, at most 10. */
  function SourcePoints(dataSources: Option<seq<string>>): (n: nat)
    ensures n <= 10
    ensures n == 0 <==> dataSources.None? || |dataSources.value| == 0
  {
    if dataSources.Some? && |dataSources.value| > 0 then Min(2 * |dataSources.value|, 10) else 0
  }

  /** The completeness score `selectBest` gives a variant. */
  function VariantScore(a: Analog): (n: int)
    ensures 0 <= n <= 100
  {
    MechanicalPoints(a.mechanical) + CompositionPoints(a.composition)
    + (if FilledText(a.standard) then 10 else 0)
    + (if FilledText(a.steel_class) then 10 else 0)
    + SourcePoints(a.data_sources)
  }

  /** A variant that fills in everything scores the full 100. */
  lemma {:induction false} CompleteVariantScoresFull(a: Analog)
    requires a.mechanical.Some?
    requires forall name :: name in ["yield_strength", "tensile_strength", "elongation", "impact_toughness"] ==>
      name in a.mechanical.value && Filled(a.mechanical.value[name])
    requires a.composition.Some? && |a.composition.value.Keys| >= 10
    requires FilledText(a.standard) && FilledText(a.steel_class)
    requires a.data_sources.Some? && |a.data_sources.value| >= 5
    ensures VariantScore(a) == 100
  {
    FilledMechanicalScoresForty(a.mechanical);
    assert CompositionPoints(a.composition) == 30;
    assert SourcePoints(a.data_sources) == 10;
  }

  /** All four mechanical properties filled in give the full 40 points. */
  lemma {:induction false} FilledMechanicalScoresForty(mechanical: Option<map<string, Val>>)
    requires mechanical.Some?
    requires forall name :: name in ["yield_strength", "tensile_strength", "elongation", "impact_toughness"] ==>
      name in mechanical.value && Filled(mechanical.value[name])
    ensures MechanicalPoints(mechanical) == 40
  {
    var names := ["yield_strength", "tensile_strength", "elongation", "impact_toughness"];
    var mp := mechanical.value;
    assert names[0] in names && names[1] in names && names[2] in names && names[3] in names;
    assert PropertyPoints(mp, "yield_strength") == 10;
    assert PropertyPoints(mp, "tensile_strength") == 10;
    assert PropertyPoints(mp, "elongation") == 10;
    assert PropertyPoints(mp, "impact_toughness") == 10;
  }

  function VariantKey(s: Scored<Analog>): real { s.relevance_score as real }

  function ScoreVariants(variants: seq<Analog>): (r: seq<Scored<Analog>>)
    ensures |r| == |variants|
    ensures forall k :: 0 <= k < |r| ==> r[k] == Scored(variants[k], VariantScore(variants[k]))
  {
    seq(|variants|, k requires 0 <= k < |variants| => Scored(variants[k], VariantScore(variants[k])))
  }

  /** `r` is the earliest of the variants with the highest score. */
  predicate EarliestBest(variants: seq<Analog>, r: Analog) {
    exists k :: (
      && 0 <= k < |variants| && r == variants[k]
      && (forall j :: 0 <= j < |variants| ==> VariantScore(variants[j]) <= VariantScore(variants[k]))
      && (forall j :: 0 <= j < k ==> VariantScore(variants[j]) < VariantScore(variants[k])))
  }

  /**
   * `selectBest(variants, sourceGrade)`: a single variant is returned as it
   * is; otherwise the first variant of the stable descending sort by score,
   * that is the earliest variant with the highest score.
   */
  function SelectBest(variants: seq<Analog>): (r: Analog)
    requires |variants| > 0
    ensures |variants| == 1 ==> r == variants[0]
    ensures EarliestBest(variants, r)
  {
    if |variants| == 1 then
      OnlyIsBest(variants);
      variants[0]
    else
      HeadIsBest(variants);
      SortDesc(ScoreVariants(variants), VariantKey)[0].item
  }

  /** A lone variant is the best one. */
  lemma {:induction false} OnlyIsBest(variants: seq<Analog>)
    requires |variants| == 1
    ensures EarliestBest(variants, variants[0])
  {
    assert forall j :: 0 <= j < |variants| ==> variants[j] == variants[0];
  }

  /** The head of the sorted variants is the earliest one with the highest score. */
  lemma {:induction false} HeadIsBest(variants: seq<Analog>)
    requires |variants| > 0
    ensures EarliestBest(variants, SortDesc(ScoreVariants(variants), VariantKey)[0].item)
  {
    var scored := ScoreVariants(variants);
    SortDescHead(scored, VariantKey);
    FirstMaxIsBest(variants);
    var k := FirstMaxIndex(scored, VariantKey);
    assert SortDesc(scored, VariantKey)[0].item == variants[k];
  }

  /** The index `FirstMaxIndex` picks holds the earliest of the highest variant scores. */
  lemma {:induction false} FirstMaxIsBest(variants: seq<Analog>)
    requires |variants| > 0
    ensures var k := FirstMaxIndex(ScoreVariants(variants), VariantKey);
      && ScoreVariants(variants)[k].item == variants[k]
      && (forall j :: 0 <= j < |variants| ==> VariantScore(variants[j]) <= VariantScore(variants[k]))
      && (forall j :: 0 <= j < k ==> VariantScore(variants[j]) < VariantScore(variants[k]))
  {
    var scored := ScoreVariants(variants);
    var k := FirstMaxIndex(scored, VariantKey);
    forall j | 0 <= j < |variants| ensures VariantScore(variants[j]) <= VariantScore(variants[k]) {
      assert VariantKey(scored[j]) <= VariantKey(scored[k]);
    }
    forall j | 0 <= j < k ensures VariantScore(variants[j]) < VariantScore(variants[k]) {
      assert VariantKey(scored[j]) < VariantKey(scored[k]);
    }
  }

  /** Of two variants the earlier wins unless the later scores strictly higher. */
  lemma {:induction false} SelectBestOfTwo(first: Analog, second: Analog)
    ensures SelectBest([first, second]) == if VariantScore(second) > VariantScore(first) then second else first
  {
    var r := SelectBest([first, second]);
    var k :| 0 <= k < 2 && r == [first, second][k]
      && (forall j :: 0 <= j < 2 ==> VariantScore([first, second][j]) <= VariantScore([first, second][k]))
      && (forall j :: 0 <= j < k ==> VariantScore([first, second][j]) < VariantScore([first, second][k]));
    if k == 0 {
      assert VariantScore([first, second][1]) <= VariantScore(first);
    } else {
      assert VariantScore([first, second][0]) < VariantScore(second);
    }
  }

  /** The fixed USA entry: the input grade with placeholder data. */
  function UsaPlaceholder(steelGrade: string): Analog {
    Analog(Some(steelGrade), Some("ASTM A240"), Some(map[]), Some(map[]), Some("Нержавеющая"), Some(0.0),
      Some("Хорошая"), Some("Высокая"), None, None, None)
  }

  const SEARCH_STRATEGY: string := "sequential_2phase"

  datatype SequentialResult = SequentialResult(analogs: Analogs, search_strategy: string)

  /** `standards[targetCountry] || ''`: the standard family named in the prompt. */
  function StandardFor(country: string): (r: string)
    ensures r == "" <==> Keywords(country) == []
    ensures country == "Russia" ==> r == "GOST (ГОСТ)"
    ensures country == "China" ==> r == "GB (国标)"
    ensures country == "USA" ==> r == "ASTM, AISI, UNS"
  {
    if country == "Russia" then "GOST (ГОСТ)"
    else if country == "China" then "GB (国标)"
    else if country == "USA" then "ASTM, AISI, UNS"
    else ""
  }

  /**
   * What `buildSingleAnalogPrompt` writes into the prompt: the source grade
   * (missing when an earlier answer had none), the country, its standard and
   * the sources listed.
   */
  datatype Prompt = Prompt(grade: Option<string>, country: string, standard: string, sources: seq<Source>)

  /**
   * `buildSingleAnalogPrompt(sourceGrade, targetCountry, searchData, config)`:
   * the first 20 filtered sources; with ten or more sources all of them
   * mention the country.
   */
  function BuildPrompt(sourceGrade: Option<string>, country: string, topSources: Option<seq<Source>>): (p: Prompt)
    ensures p.grade == sourceGrade && p.country == country && p.standard == StandardFor(country)
    ensures p.sources == Items(PromptSources(Filter(ScoreAll(topSources.GetOr([]), TitleOf, ContentOf, Keywords(country),
                                                            OCCURRENCE_WEIGHT, 0))))
    ensures |p.sources| <= PROMPT_SOURCES
    ensures |topSources.GetOr([])| >= KEEP_ALL_BELOW ==>
      forall s :: s in p.sources ==> Mentions(SearchText(s.title, s.content), Keywords(country))
  {
    var all := topSources.GetOr([]);
    var filtered := Filter(ScoreAll(all, TitleOf, ContentOf, Keywords(country), OCCURRENCE_WEIGHT, 0));
    var sources := Items(PromptSources(filtered));
    var p := Prompt(sourceGrade, country, StandardFor(country), sources);
    if |all| >= KEEP_ALL_BELOW then
      KeptMention(all, TitleOf, ContentOf, Keywords(country), OCCURRENCE_WEIGHT, 0);
      PrefixMentions(filtered, sources, TitleOf, ContentOf, Keywords(country));
      p
    else p
  }

  /** The extraction backend asked, with a model name, for the analog a prompt describes. */
  type Finder = (string, Prompt) -> Result<Analog, string>

  /** `findAnalog(sourceGrade, targetCountry, searchData, config)`: one backend call, its failure not caught. */
  function FindAnalog(find: Finder, model: string, sourceGrade: Option<string>, country: string,
                      topSources: Option<seq<Source>>): Result<Analog, string>
  {
    find(model, BuildPrompt(sourceGrade, country, topSources))
  }

  /**
   * `execute(steelGrade, searchData, config)`: phase 1 finds Russia and
   * China from the input grade, phase 2 finds China from Russia's grade and
   * Russia from China's, and the better variant of each is kept. Every
   * lookup uses `deepseek_model || 'deepseek-chat'` and the search's
   * `top_sources`. A failed lookup fails the whole strategy, as nothing
   * catches it.
   */
  function Execute(find: Finder, configuredModel: Option<string>, steelGrade: string, topSources: Option<seq<Source>>)
    : (r: Result<SequentialResult, string>)
    ensures var model := TextOr(configuredModel, "deepseek-chat");
      var russia1 := FindAnalog(find, model, Some(steelGrade), "Russia", topSources);
      var china1 := FindAnalog(find, model, Some(steelGrade), "China", topSources);
      && (r.Success? <==>
            && russia1.Success? && china1.Success?
            && FindAnalog(find, model, russia1.value.grade, "China", topSources).Success?
            && FindAnalog(find, model, china1.value.grade, "Russia", topSources).Success?)
      && (r.Success? ==>
            && r.value.search_strategy == SEARCH_STRATEGY
            && r.value.analogs == [
                 Entry("USA", UsaPlaceholder(steelGrade)),
                 Entry("Russia", SelectBest([russia1.value, FindAnalog(find, model, china1.value.grade, "Russia", topSources).value])),
                 Entry("China", SelectBest([china1.value, FindAnalog(find, model, russia1.value.grade, "China", topSources).value]))])
  {
    var model := TextOr(configuredModel, "deepseek-chat");
    match FindAnalog(find, model, Some(steelGrade), "Russia", topSources)
    case Failure(e) => Failure(e)
    case Success(russia1) =>
      match FindAnalog(find, model, Some(steelGrade), "China", topSources)
      case Failure(e) => Failure(e)
      case Success(china1) =>
        match FindAnalog(find, model, russia1.grade, "China", topSources)
        case Failure(e) => Failure(e)
        case Success(china2) =>
          match FindAnalog(find, model, china1.grade, "Russia", topSources)
          case Failure(e) => Failure(e)
          case Success(russia2) =>
            Success(SequentialResult(
              [Entry("USA", UsaPlaceholder(steelGrade)),
               Entry("Russia", SelectBest([russia1, russia2])),
               Entry("China", SelectBest([china1, china2]))],
              SEARCH_STRATEGY))
  }
}
