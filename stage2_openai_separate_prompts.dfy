/**
 * Stage 2 with one prompt per country sent to the second provider: only
 * sources relevant to the country are offered, and a failed call yields an
 * all-null record carrying the error message.
 */
module Stage2OpenaiSeparatePrompts {
  import opened Wrappers
  import opened Sorting
  import opened Model
  import opened Sources
  import opened Relevance

  /** How many sources go into a prompt. */
  const PROMPT_SOURCES: nat := 30

  const MODEL: string := "gpt-4o-mini"

  /**
   * `filterSourcesByCountry(searchData, targetCountry)`: sources scored 5 per
   * keyword occurrence and 20 per keyword in the title, sorted, the
   * irrelevant ones dropped.
   */
  method FilterSourcesByCountry(topSources: Option<seq<Source>>, country: string) returns (r: seq<Scored<Source>>)
    ensures r == KeepRelevant(ScoreAll(topSources.GetOr([]), TitleOf, ContentOf, CountryKeywords(country), MENTION_WEIGHT, TITLE_BONUS))
  {
    var allSources := topSources.GetOr([]);
    var scored := ScoreSources(allSources, TitleOf, ContentOf, CountryKeywords(country), MENTION_WEIGHT, TITLE_BONUS);
    r := KeepRelevant(scored);
  }

  /** A source is offered for a country exactly when one of its keywords occurs in the source. */
  lemma {:induction false} OfferedIffMentioned(sources: seq<Source>, country: string, k: nat)
    requires k < |sources|
    ensures var scored := ScoreAll(sources, TitleOf, ContentOf, CountryKeywords(country), MENTION_WEIGHT, TITLE_BONUS);
      scored[k] in KeepRelevant(scored) <==> Mentions(SearchText(sources[k].title, sources[k].content), CountryKeywords(country))
  {
    ScoreAllRelevantIff(sources, TitleOf, ContentOf, CountryKeywords(country), MENTION_WEIGHT, TITLE_BONUS, k);
  }

  /** The sources listed in the prompt, at most 30, best first. */
  function PromptSources(filtered: seq<Scored<Source>>): (r: seq<Source>)
    ensures |r| <= PROMPT_SOURCES && |r| <= |filtered|
    ensures forall k :: 0 <= k < |r| ==> r[k] == filtered[k].item
  {
    Take(Items(filtered), PROMPT_SOURCES)
  }

  /** The twelve elements of the empty composition. */
  const NULL_ELEMENTS: seq<string> := ["C", "Cr", "Ni", "Mn", "Si", "P", "S", "Mo", "Cu", "V", "Ti", "Fe"]

  function NullComposition(): (c: Composition)
    ensures c.Keys == set e | e in NULL_ELEMENTS
    ensures forall e :: e in c ==> c[e] == NonNumeric
  {
    map e | e in NULL_ELEMENTS :: NonNumeric
  }

  /** The record returned when the backend call fails: every field null, the message kept. */
  function NullRecord(message: string): (r: Analog)
    ensures r.grade.None? && r.standard.None? && r.steel_class.None? && r.weldability.None?
    ensures r.composition == Some(NullComposition())
    ensures r.mechanical.Some? && r.mechanical.value.Keys == {"yield_strength", "tensile_strength", "elongation", "impact_toughness"}
    ensures forall name :: name in r.mechanical.value ==> r.mechanical.value[name] == Null
    ensures r.error == Some(message)
  {
    Analog(None, None, Some(NullComposition()),
      Some(map["yield_strength" := Null, "tensile_strength" := Null, "elongation" := Null, "impact_toughness" := Null]),
      None, None, None, None, None, Some(message), None)
  }

  /**
   * What `buildSingleCountryPrompt` writes into the prompt for one country:
   * the grade, the country, its standard family and the sources listed.
   */
  datatype Prompt = Prompt(grade: string, country: string, standard: string, sources: seq<Source>)

  /**
   * `buildSingleCountryPrompt(sourceGrade, targetCountry, searchData, config)`:
   * the 30 best of the sources mentioning the country, none if no source does.
   */
  function BuildPrompt(steelGrade: string, country: string, topSources: Option<seq<Source>>): (p: Prompt)
    ensures p.grade == steelGrade && p.country == country && p.standard == TargetStandard(country)
    ensures |p.sources| <= PROMPT_SOURCES
    ensures p.sources == Take(Items(KeepRelevant(ScoreAll(topSources.GetOr([]), TitleOf, ContentOf, CountryKeywords(country),
                                                         MENTION_WEIGHT, TITLE_BONUS))), PROMPT_SOURCES)
    ensures forall s :: s in p.sources ==> Mentions(SearchText(s.title, s.content), CountryKeywords(country))
  {
    var all := topSources.GetOr([]);
    var relevant := KeepRelevant(ScoreAll(all, TitleOf, ContentOf, CountryKeywords(country), MENTION_WEIGHT, TITLE_BONUS));
    KeptMention(all, TitleOf, ContentOf, CountryKeywords(country), MENTION_WEIGHT, TITLE_BONUS);
    var sources := PromptSources(relevant);
    PrefixMentions(relevant, sources, TitleOf, ContentOf, CountryKeywords(country));
    Prompt(steelGrade, country, TargetStandard(country), sources)
  }

  /** The backend asked, with a model name, for the analog a prompt describes. */
  type Extractor = (string, Prompt) -> Result<Analog, string>

  /** `findSingleAnalog`: the backend's analog, or the null record with the error message. */
  function FindSingleAnalog(extract: Extractor, steelGrade: string, country: string, topSources: Option<seq<Source>>): (r: Analog)
    ensures var reply := extract(MODEL, BuildPrompt(steelGrade, country, topSources));
      && (reply.Success? ==> r == reply.value)
      && (reply.Failure? ==> r == NullRecord(reply.error))
  {
    match extract(MODEL, BuildPrompt(steelGrade, country, topSources))
    case Success(a) => a
    case Failure(e) => NullRecord(e)
  }

  datatype OpenaiResult = OpenaiResult(steel_grade: string, analogs: Analogs, search_strategy: string, model: string, total_sources: nat)

  /** `searchData.aggregated_data?.top_sources?.length || 0` */
  function TotalSources(topSources: Option<seq<Source>>): (n: nat)
    ensures topSources.None? ==> n == 0
    ensures topSources.Some? ==> n == |topSources.value|
  {
    if topSources.Some? then |topSources.value| else 0
  }

  /**
   * `execute(steelGrade, searchData, config)`: three independent lookups,
   * keyed USA, Russia and China, with the number of aggregated sources.
   */
  function Execute(extract: Extractor, steelGrade: string, topSources: Option<seq<Source>>): (r: OpenaiResult)
    ensures r.steel_grade == steelGrade && r.model == MODEL && r.search_strategy == "openai_separate_prompts"
    ensures r.total_sources == TotalSources(topSources)
    ensures |r.analogs| == 3
    ensures forall k :: 0 <= k < 3 ==>
      r.analogs[k].country == COUNTRIES[k] && r.analogs[k].analog == FindSingleAnalog(extract, steelGrade, COUNTRIES[k], topSources)
  {
    OpenaiResult(steelGrade,
      seq(|COUNTRIES|, k requires 0 <= k < |COUNTRIES| =>
        Entry(COUNTRIES[k], FindSingleAnalog(extract, steelGrade, COUNTRIES[k], topSources))),
      "openai_separate_prompts", MODEL, TotalSources(topSources))
  }

  /** A backend that always fails leaves three null records, each with its message. */
  lemma {:induction false} AllFailuresGiveNullRecords(extract: Extractor, steelGrade: string, topSources: Option<seq<Source>>)
    requires forall p :: extract(MODEL, p).Failure?
    ensures forall k :: 0 <= k < 3 ==>
      var a := Execute(extract, steelGrade, topSources).analogs[k].analog;
      a.grade.None? && a.error == Some(extract(MODEL, BuildPrompt(steelGrade, COUNTRIES[k], topSources)).error)
  {
  }
}
