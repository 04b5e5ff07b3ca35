/**
 * Stage 2 escalation with the reasoning model: each analog of the first
 * attempt is improved on its own, from the validator's messages about it and
 * the targeted sources relevant to its country; a failed call keeps the
 * original analog.
 */
module Stage2ReasonerSeparate {
  import opened Wrappers
  import opened Text
  import opened Sorting
  import opened Model
  import opened Sources
  import opened Relevance
  import opened Stage1TargetedSearch

  /** How many sources go into a prompt. */
  const PROMPT_SOURCES: nat := 20

  const MODEL: string := "deepseek-reasoner"

  /** `originalAnalog.grade` on a missing analog throws while the prompt is built. */
  const MISSING_ANALOG_ERROR: string := "Cannot read properties of undefined (reading 'grade')"

  function TargetedTitle(s: TargetedSource): string { s.hit.title }
  function TargetedContent(s: TargetedSource): string { s.hit.content }

  /**
   * `filterSourcesByCountry(targetedSearchData, targetCountry)`: the targeted
   * `sources` (none when missing), scored 5 per keyword occurrence and 20 per
   * keyword in the title, sorted, the irrelevant ones dropped.
   */
  method FilterSourcesByCountry(sources: Option<seq<TargetedSource>>, country: string) returns (r: seq<Scored<TargetedSource>>)
    ensures r == KeepRelevant(ScoreAll(sources.GetOr([]), TargetedTitle, TargetedContent, CountryKeywords(country), MENTION_WEIGHT, TITLE_BONUS))
  {
    var allSources := sources.GetOr([]);
    var scored := ScoreSources(allSources, TargetedTitle, TargetedContent, CountryKeywords(country), MENTION_WEIGHT, TITLE_BONUS);
    r := KeepRelevant(scored);
  }

  /** The sources listed in the prompt, at most 20, best first. */
  function PromptSources(filtered: seq<Scored<TargetedSource>>): (r: seq<TargetedSource>)
    ensures |r| <= PROMPT_SOURCES && |r| <= |filtered|
    ensures forall k :: 0 <= k < |r| ==> r[k] == filtered[k].item
  {
    Take(Items(filtered), PROMPT_SOURCES)
  }

  /** `originalAnalog.grade?.toLowerCase() || 'unknown'` */
  function GradeKey(grade: Option<string>): (r: string)
    ensures r != ""
    ensures Present(grade) ==> r == ToLower(grade.value)
    ensures !Present(grade) ==> r == "unknown"
  {
    if Present(grade) then ToLower(grade.value) else "unknown"
  }

  /** A message concerns the country or the analog's grade. */
  predicate Concerns(msg: string, country: string, grade: Option<string>) {
    Contains(ToLower(msg), ToLower(country)) || Contains(ToLower(msg), GradeKey(grade))
  }

  /** The validator's messages passed on for one analog, in their order. */
  function SelectMessages(msgs: seq<string>, country: string, grade: Option<string>): (r: seq<string>)
    ensures |r| <= |msgs|
    ensures forall m :: m in r <==> m in msgs && Concerns(m, country, grade)
    decreases |msgs|
  {
    if msgs == [] then []
    else
      var rest := SelectMessages(msgs[1..], country, grade);
      assert forall m :: m in msgs <==> m == msgs[0] || m in msgs[1..];
      if Concerns(msgs[0], country, grade) then [msgs[0]] + rest else rest
  }

  /** With a missing grade, a message naming the grade "unknown" is passed to every country. */
  lemma {:induction false} UnknownGradeMatches(msg: string, country: string)
    requires Contains(ToLower(msg), "unknown")
    ensures Concerns(msg, country, None)
  {
  }

  /**
   * The reasoning backend asked to improve one country's analog, given the
   * messages about it and the relevant sources.
   */
  type Improver = (string, Analog, seq<string>, seq<string>, seq<TargetedSource>) -> Result<Analog, string>

  /** The arguments `improveSingleAnalog` builds its prompt from. */
  function Ask(improve: Improver, country: string, original: Analog, errors: seq<string>, warnings: seq<string>,
               sources: Option<seq<TargetedSource>>): Result<Analog, string>
  {
    var relevant := KeepRelevant(ScoreAll(sources.GetOr([]), TargetedTitle, TargetedContent, CountryKeywords(country), MENTION_WEIGHT, TITLE_BONUS));
    improve(country, original,
      SelectMessages(errors, country, original.grade), SelectMessages(warnings, country, original.grade),
      PromptSources(relevant))
  }

  /**
   * `improveSingleAnalog`: a missing analog fails while the prompt is built,
   * outside the `try`; otherwise the improved analog, or the original one if
   * the call fails.
   */
  function ImproveSingleAnalog(improve: Improver, country: string, original: Option<Analog>,
                               errors: seq<string>, warnings: seq<string>, sources: Option<seq<TargetedSource>>): (r: Result<Analog, string>)
    ensures original.None? ==> r == Failure(MISSING_ANALOG_ERROR)
    ensures original.Some? ==> r.Success?
    ensures original.Some? && Ask(improve, country, original.value, errors, warnings, sources).Failure? ==>
      r.value == original.value
    ensures original.Some? && Ask(improve, country, original.value, errors, warnings, sources).Success? ==>
      r.value == Ask(improve, country, original.value, errors, warnings, sources).value
  {
    match original
    case None => Failure(MISSING_ANALOG_ERROR)
    case Some(a) =>
      match Ask(improve, country, a, errors, warnings, sources)
      case Success(improved) => Success(improved)
      case Failure(_) => Success(a)
  }

  datatype ReasonerResult = ReasonerResult(
    steel_grade: string,
    analogs: Analogs,
    search_strategy: string,
    model: string,
    targeted_sources: nat,
    improvements_made: seq<string>)

  /** `targetedSearchData.sources?.length || 0` */
  function TargetedCount(sources: Option<seq<TargetedSource>>): (n: nat)
    ensures sources.None? ==> n == 0
    ensures sources.Some? ==> n == |sources.value|
  {
    if sources.Some? then |sources.value| else 0
  }

  /** `[...(usa.improvements_made || []), ...(russia...), ...(china...)]` */
  function Improvements(usa: Analog, russia: Analog, china: Analog): (r: seq<string>)
    ensures |r| == |ListOr(usa.improvements_made)| + |ListOr(russia.improvements_made)| + |ListOr(china.improvements_made)|
    ensures r[..|ListOr(usa.improvements_made)|] == ListOr(usa.improvements_made)
    ensures r[|r| - |ListOr(china.improvements_made)|..] == ListOr(china.improvements_made)
  {
    ListOr(usa.improvements_made) + ListOr(russia.improvements_made) + ListOr(china.improvements_made)
  }

  /** The original result has an analog for each of the three countries. */
  predicate AllPresent(original: Analogs) {
    Find(original, "USA").Some? && Find(original, "Russia").Some? && Find(original, "China").Some?
  }

  /**
   * `execute(steelGrade, originalData, validationReport, targetedSearchData, config)`:
   * the three analogs improved independently; the first missing original
   * analog, in the order USA, Russia, China, fails the stage.
   */
  function Execute(improve: Improver, steelGrade: string, original: Analogs, errors: seq<string>, warnings: seq<string>,
                   sources: Option<seq<TargetedSource>>): (r: Result<ReasonerResult, string>)
    ensures r.Success? <==> AllPresent(original)
    ensures r.Failure? ==> r.error == MISSING_ANALOG_ERROR
    ensures r.Success? ==>
      && r.value.steel_grade == steelGrade && r.value.model == MODEL
      && r.value.search_strategy == "reasoner_separate_prompts"
      && r.value.targeted_sources == TargetedCount(sources)
      && r.value.analogs == [
           Entry("USA", ImproveSingleAnalog(improve, "USA", Find(original, "USA"), errors, warnings, sources).value),
           Entry("Russia", ImproveSingleAnalog(improve, "Russia", Find(original, "Russia"), errors, warnings, sources).value),
           Entry("China", ImproveSingleAnalog(improve, "China", Find(original, "China"), errors, warnings, sources).value)]
      && r.value.improvements_made
         == Improvements(r.value.analogs[0].analog, r.value.analogs[1].analog, r.value.analogs[2].analog)
  {
    var usa := ImproveSingleAnalog(improve, "USA", Find(original, "USA"), errors, warnings, sources);
    var russia := ImproveSingleAnalog(improve, "Russia", Find(original, "Russia"), errors, warnings, sources);
    var china := ImproveSingleAnalog(improve, "China", Find(original, "China"), errors, warnings, sources);
    if usa.Failure? then Failure(usa.error)
    else if russia.Failure? then Failure(russia.error)
    else if china.Failure? then Failure(china.error)
    else
      Success(ReasonerResult(steelGrade,
        [Entry("USA", usa.value), Entry("Russia", russia.value), Entry("China", china.value)],
        "reasoner_separate_prompts", MODEL, TargetedCount(sources),
        Improvements(usa.value, russia.value, china.value)))
  }

  /** A reasoner that always fails leaves the original analogs. */
  lemma {:induction false} FailingReasonerKeepsOriginals(improve: Improver, steelGrade: string, original: Analogs,
                                      errors: seq<string>, warnings: seq<string>, sources: Option<seq<TargetedSource>>)
    requires forall c, a, e, w, s :: improve(c, a, e, w, s).Failure?
    requires AllPresent(original)
    ensures var r := Execute(improve, steelGrade, original, errors, warnings, sources);
      && r.Success?
      && Some(r.value.analogs[0].analog) == Find(original, "USA")
      && Some(r.value.analogs[1].analog) == Find(original, "Russia")
      && Some(r.value.analogs[2].analog) == Find(original, "China")
  {
  }
}
