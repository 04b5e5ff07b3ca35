/**
 * Stage 2 with one extraction prompt per country: each analog is asked for
 * on its own, from the sources most relevant to that country, and a failed
 * call yields a placeholder instead of failing the stage.
 */
module Stage2SeparatePrompts {
  import opened Wrappers
  import opened Sorting
  import opened Model
  import opened Sources
  import opened Relevance

  /** More than this many relevant sources are needed for the ranked list to be used. */
  const MIN_RELEVANT: nat := 5

  /** How many sources go into a prompt. */
  const PROMPT_SOURCES: nat := 25

  /**
   * What `filterSourcesByCountry` hands back: the relevant sources, scored
   * and ranked, or the original `top_sources` as they came.
   */
  datatype Filtered = Ranked(ranked: seq<Scored<Source>>) | Unranked(sources: seq<Source>)

  /** The choice between the ranked relevant sources and the original list. */
  function Filter(scored: seq<Scored<Source>>, allSources: seq<Source>): (r: Filtered)
    ensures r.Ranked? ==> r.ranked == KeepRelevant(scored) && |r.ranked| > MIN_RELEVANT
    ensures r.Unranked? ==> r.sources == allSources && |KeepRelevant(scored)| <= MIN_RELEVANT
  {
    var relevant := KeepRelevant(scored);
    if |relevant| > MIN_RELEVANT then Ranked(relevant) else Unranked(allSources)
  }

  /**
   * `filterSourcesByCountry(searchData, targetCountry)`: sources scored 5 per
   * keyword occurrence and 20 per keyword in the title; the ranked relevant
   * ones if there are more than five, the original `top_sources` otherwise.
   */
  method FilterSourcesByCountry(topSources: Option<seq<Source>>, country: string) returns (r: Filtered)
    ensures r == Filter(ScoreAll(topSources.GetOr([]), TitleOf, ContentOf, CountryKeywords(country), MENTION_WEIGHT, TITLE_BONUS),
                        topSources.GetOr([]))
  {
    var allSources := topSources.GetOr([]);
    var scored := ScoreSources(allSources, TitleOf, ContentOf, CountryKeywords(country), MENTION_WEIGHT, TITLE_BONUS);
    r := Filter(scored, allSources);
  }

  /** The sources listed in the prompt, at most 25, in the filter's order. */
  function PromptSources(f: Filtered): (r: seq<Source>)
    ensures |r| <= PROMPT_SOURCES
    ensures f.Ranked? ==> |r| <= |f.ranked| && r == Items(f.ranked)[..|r|] && |r| == (if |f.ranked| < PROMPT_SOURCES then |f.ranked| else PROMPT_SOURCES)
    ensures f.Unranked? ==> |r| <= |f.sources| && r == f.sources[..|r|] && |r| == (if |f.sources| < PROMPT_SOURCES then |f.sources| else PROMPT_SOURCES)
  {
    match f
    case Ranked(ranked) => Take(Items(ranked), PROMPT_SOURCES)
    case Unranked(sources) => Take(sources, PROMPT_SOURCES)
  }

  const UNKNOWN_LABEL: string := "Неизвестная"

  /** The record returned when the backend call fails. */
  function Placeholder(country: string): (r: Analog)
    ensures r.grade == Some("Unknown " + country) && r.standard == Some("Unknown")
    ensures r.composition == Some(map[]) && r.carbon_equivalent == Some(0.0)
    ensures r.mechanical.Some? && r.mechanical.value.Keys == {"yield_strength", "tensile_strength", "elongation", "impact_toughness"}
    ensures forall name :: name in r.mechanical.value ==> r.mechanical.value[name] == Null
    ensures r.steel_class == r.weldability == r.popularity == Some(UNKNOWN_LABEL)
  {
    Analog(Some("Unknown " + country), Some("Unknown"), Some(map[]),
      Some(map["yield_strength" := Null, "tensile_strength" := Null, "elongation" := Null, "impact_toughness" := Null]),
      Some(UNKNOWN_LABEL), Some(0.0), Some(UNKNOWN_LABEL), Some(UNKNOWN_LABEL), None, None, None)
  }

  /**
   * What `buildSingleCountryPrompt` writes into the prompt for one country:
   * the grade, the country, its standard family and the sources listed.
   */
  datatype Prompt = Prompt(grade: string, country: string, standard: string, sources: seq<Source>)

  /**
   * `buildSingleCountryPrompt(sourceGrade, targetCountry, searchData, config)`:
   * the first 25 of the ranked relevant sources, all of them mentioning the
   * country, when more than five are relevant; the first 25 of
   * `top_sources` otherwise.
   */
  function BuildPrompt(steelGrade: string, country: string, topSources: Option<seq<Source>>): (p: Prompt)
    ensures p.grade == steelGrade && p.country == country && p.standard == TargetStandard(country)
    ensures |p.sources| <= PROMPT_SOURCES
    ensures var relevant := KeepRelevant(ScoreAll(topSources.GetOr([]), TitleOf, ContentOf, CountryKeywords(country), MENTION_WEIGHT, TITLE_BONUS));
      && (|relevant| > MIN_RELEVANT ==> p.sources == Take(Items(relevant), PROMPT_SOURCES))
      && (|relevant| > MIN_RELEVANT ==>
            forall s :: s in p.sources ==> Mentions(SearchText(s.title, s.content), CountryKeywords(country)))
      && (|relevant| <= MIN_RELEVANT ==> p.sources == Take(topSources.GetOr([]), PROMPT_SOURCES))
  {
    var all := topSources.GetOr([]);
    var scored := ScoreAll(all, TitleOf, ContentOf, CountryKeywords(country), MENTION_WEIGHT, TITLE_BONUS);
    KeptMention(all, TitleOf, ContentOf, CountryKeywords(country), MENTION_WEIGHT, TITLE_BONUS);
    var filtered := Filter(scored, all);
    var sources := PromptSources(filtered);
    var p := Prompt(steelGrade, country, TargetStandard(country), sources);
    if filtered.Ranked? then
      PrefixMentions(filtered.ranked, sources, TitleOf, ContentOf, CountryKeywords(country));
      p
    else p
  }

  /** The extraction backend asked, with a model name, for the analog a prompt describes. */
  type Extractor = (string, Prompt) -> Result<Analog, string>

  /** `config.deepseek_model || 'deepseek-chat'` */
  function ModelName(configured: Option<string>): string {
    TextOr(configured, "deepseek-chat")
  }

  /** `findSingleAnalog`: the backend's analog, or the placeholder if the call fails. */
  function FindSingleAnalog(extract: Extractor, model: string, steelGrade: string, country: string,
                            topSources: Option<seq<Source>>): (r: Analog)
    ensures var reply := extract(model, BuildPrompt(steelGrade, country, topSources));
      && (reply.Success? ==> r == reply.value)
      && (reply.Failure? ==> r == Placeholder(country))
  {
    match extract(model, BuildPrompt(steelGrade, country, topSources))
    case Success(a) => a
    case Failure(_) => Placeholder(country)
  }

  datatype SeparateResult = SeparateResult(analogs: Analogs, strategy: string, prompts_used: nat)

  /**
   * `execute(steelGrade, searchData, config)`: three independent lookups,
   * keyed USA, Russia and China; the stage itself never fails.
   */
  function Execute(extract: Extractor, steelGrade: string, configuredModel: Option<string>,
                   topSources: Option<seq<Source>>): (r: SeparateResult)
    ensures |r.analogs| == 3 && r.prompts_used == 3 && r.strategy == "separate_prompts"
    ensures forall k :: 0 <= k < 3 ==>
      && r.analogs[k].country == COUNTRIES[k]
      && r.analogs[k].analog == FindSingleAnalog(extract, ModelName(configuredModel), steelGrade, COUNTRIES[k], topSources)
  {
    var model := ModelName(configuredModel);
    SeparateResult(
      seq(|COUNTRIES|, k requires 0 <= k < |COUNTRIES| =>
        Entry(COUNTRIES[k], FindSingleAnalog(extract, model, steelGrade, COUNTRIES[k], topSources))),
      "separate_prompts", 3)
  }

  /** A failed lookup shows up only in its own country's entry. */
  lemma {:induction false} FailureIsolated(extract: Extractor, steelGrade: string, configuredModel: Option<string>,
                                           topSources: Option<seq<Source>>, k: nat)
    requires k < 3 && extract(ModelName(configuredModel), BuildPrompt(steelGrade, COUNTRIES[k], topSources)).Failure?
    ensures Execute(extract, steelGrade, configuredModel, topSources).analogs[k].analog.grade == Some("Unknown " + COUNTRIES[k])
  {
  }
}
