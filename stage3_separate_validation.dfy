/**
 * Stage 3 with one validator call per country: each analog is judged on its
 * own, a failed call becomes a zero-score verdict, and the three verdicts are
 * aggregated into one validation record.
 */
module Stage3SeparateValidation {
  import opened Wrappers
  import opened Model
  import Stage3Validate

  /** One entry of `validationResults`. */
  datatype SingleValidation = SingleValidation(country: string, analog: Analog, validation: Verdict)

  /** The verdict recorded when the validator call fails with `message`. */
  function FailedVerdict(message: string): (v: Verdict)
    ensures v.passed == Some(false) && v.overall_score == 0.0 && v.criteria_scores == Some(map[])
    ensures v.errors == Some(["Ошибка валидации: " + message])
    ensures v.warnings == Some([]) && v.recommendations == Some([])
  {
    Verdict(Some(false), 0.0, Some(map[]), Some(["Ошибка валидации: " + message]), Some([]), Some([]))
  }

  /** A verdict whose message lists are all present, as the aggregation reads them. */
  predicate WellFormed(v: Verdict) {
    v.errors.Some? && v.warnings.Some? && v.recommendations.Some?
  }

  /**
   * The aggregation reads every verdict's three lists and, once the first
   * verdict names a criterion, every verdict's `criteria_scores`; anything
   * else throws a TypeError.
   */
  predicate Aggregatable(results: seq<SingleValidation>) {
    && |results| > 0
    && (forall k :: 0 <= k < |results| ==> WellFormed(results[k].validation))
    && (CriteriaNames(results) != {} ==> forall k :: 0 <= k < |results| ==> results[k].validation.criteria_scores.Some?)
  }

  /**
   * `validateSingleAnalog(analogData, country, ...)` given the validator's
   * reply, for an analog that exists: a failed call scores 0 with one error
   * naming the cause.
   */
  function ValidateSingleAnalog(analog: Analog, country: string, reply: Result<Verdict, string>): (r: SingleValidation)
    ensures r.country == country && r.analog == analog
    ensures reply.Success? ==> r.validation == reply.value
    ensures reply.Failure? ==> (r.validation.overall_score == 0.0 && r.validation.passed == Some(false)
                                && r.validation.errors == Some(["Ошибка валидации: " + reply.error]))
    ensures (reply.Success? ==> WellFormed(reply.value)) ==> WellFormed(r.validation)
    ensures (reply.Success? ==> reply.value.criteria_scores.Some?) ==> r.validation.criteria_scores.Some?
  {
    match reply
    case Success(v) => SingleValidation(country, analog, v)
    case Failure(message) => SingleValidation(country, analog, FailedVerdict(message))
  }

  // ---------------------------------------------------------------------------
  // Aggregation
  // ---------------------------------------------------------------------------

  /** `Math.round(x)`: halves round up. */
  function Round(x: real): (n: int)
    ensures x - 0.5 < n as real <= x + 0.5
  {
    (x + 0.5).Floor
  }

  /** `Math.round(avg * 10) / 10`: the average to one decimal. */
  function OneDecimal(avg: real): (r: real)
    ensures avg - 0.05 < r <= avg + 0.05
  {
    Round(avg * 10.0) as real / 10.0
  }

  function SumScores(results: seq<SingleValidation>): real
    decreases |results|
  {
    if results == [] then 0.0
    else SumScores(results[..|results| - 1]) + results[|results| - 1].validation.overall_score
  }

  function Average(results: seq<SingleValidation>): real
    requires |results| > 0
  {
    SumScores(results) / |results| as real
  }

  /** `[${country}] ${message}` */
  function Prefix(country: string, message: string): string {
    "[" + country + "] " + message
  }

  function PrefixAll(country: string, messages: seq<string>): (r: seq<string>)
    ensures |r| == |messages|
    ensures forall k :: 0 <= k < |r| ==> r[k] == Prefix(country, messages[k])
  {
    seq(|messages|, k requires 0 <= k < |messages| => Prefix(country, messages[k]))
  }

  datatype Kind = Errors | Warnings | Recommendations

  function Pick(v: Verdict, kind: Kind): seq<string> {
    match kind
    case Errors => ListOr(v.errors)
    case Warnings => ListOr(v.warnings)
    case Recommendations => ListOr(v.recommendations)
  }

  /** Every message of the given kind, prefixed with its country, country by country. */
  function AllMessages(results: seq<SingleValidation>, kind: Kind): seq<string>
    decreases |results|
  {
    if results == [] then []
    else
      var last := results[|results| - 1];
      AllMessages(results[..|results| - 1], kind) + PrefixAll(last.country, Pick(last.validation, kind))
  }

  function MessageCount(results: seq<SingleValidation>, kind: Kind): nat
    decreases |results|
  {
    if results == [] then 0
    else MessageCount(results[..|results| - 1], kind) + |Pick(results[|results| - 1].validation, kind)|
  }

  /** No message is lost or added by the aggregation. */
  lemma {:induction false} AllMessagesCount(results: seq<SingleValidation>, kind: Kind)
    ensures |AllMessages(results, kind)| == MessageCount(results, kind)
    decreases |results|
  {
    if results != [] {
      AllMessagesCount(results[..|results| - 1], kind);
    }
  }

  /** `criteria_scores[criterion] || 0`, for a verdict that has `criteria_scores`. */
  function CriterionScore(v: Verdict, criterion: string): real {
    if v.criteria_scores.Some? && criterion in v.criteria_scores.value then v.criteria_scores.value[criterion] else 0.0
  }

  function SumCriterion(results: seq<SingleValidation>, criterion: string): real
    decreases |results|
  {
    if results == [] then 0.0
    else SumCriterion(results[..|results| - 1], criterion) + CriterionScore(results[|results| - 1].validation, criterion)
  }

  /** The criteria are the ones the first verdict names. */
  function CriteriaNames(results: seq<SingleValidation>): set<string>
    requires |results| > 0
  {
    var first := results[0].validation.criteria_scores;
    if first.Some? then first.value.Keys else {}
  }

  function CriterionAverage(results: seq<SingleValidation>, criterion: string): real
    requires |results| > 0
  {
    Round(SumCriterion(results, criterion) / |results| as real) as real
  }

  function IndividualScores(results: seq<SingleValidation>): (r: seq<CountryScore>)
    ensures |r| == |results|
    ensures forall k :: 0 <= k < |r| ==> r[k] == CountryScore(results[k].country, results[k].validation.overall_score)
  {
    seq(|results|, k requires 0 <= k < |results| => CountryScore(results[k].country, results[k].validation.overall_score))
  }

  lemma {:induction false} AllMessagesSnoc(results: seq<SingleValidation>, i: nat, kind: Kind)
    requires i < |results|
    ensures AllMessages(results[..i + 1], kind)
      == AllMessages(results[..i], kind) + PrefixAll(results[i].country, Pick(results[i].validation, kind))
  {
    assert results[..i + 1][..i] == results[..i];
  }

  /**
   * `aggregateValidations(validationResults)`: the pass decision on the
   * unrounded average, the average rounded to one decimal, every message
   * prefixed with its country, each criterion of the first verdict averaged
   * over all verdicts and rounded, and the score of each country.
   */
  method AggregateValidations(results: seq<SingleValidation>) returns (v: Validation)
    requires Aggregatable(results)
    ensures v.passed <==> Average(results) >= Stage3Validate.PASS_SCORE
    ensures v.overall_score == OneDecimal(Average(results))
    ensures v.errors == AllMessages(results, Errors)
    ensures v.warnings == AllMessages(results, Warnings)
    ensures v.recommendations == AllMessages(results, Recommendations)
    ensures v.criteria.Some? && v.criteria.value.Keys == CriteriaNames(results)
    ensures forall c :: c in v.criteria.value ==> v.criteria.value[c] == CriterionAverage(results, c)
    ensures v.individual_scores == Some(IndividualScores(results))
    ensures v.checks_performed.None?
  {
    var totalScore := SumScores(results);
    var avgScore := totalScore / |results| as real;
    var allErrors: seq<string> := [];
    var allWarnings: seq<string> := [];
    var allRecommendations: seq<string> := [];
    var i := 0;
    while i < |results|
      invariant 0 <= i <= |results|
      invariant allErrors == AllMessages(results[..i], Errors)
      invariant allWarnings == AllMessages(results[..i], Warnings)
      invariant allRecommendations == AllMessages(results[..i], Recommendations)
    {
      var country := results[i].country;
      var validation := results[i].validation;
      AllMessagesSnoc(results, i, Errors);
      AllMessagesSnoc(results, i, Warnings);
      AllMessagesSnoc(results, i, Recommendations);
      allErrors := allErrors + PrefixAll(country, validation.errors.value);
      allWarnings := allWarnings + PrefixAll(country, validation.warnings.value);
      allRecommendations := allRecommendations + PrefixAll(country, validation.recommendations.value);
      i := i + 1;
    }
    assert results[..i] == results;
    var criteriaScores: map<string, real> := map[];
    var remaining := CriteriaNames(results);
    while remaining != {}
      invariant remaining <= CriteriaNames(results)
      invariant criteriaScores.Keys == CriteriaNames(results) - remaining
      invariant forall c :: c in criteriaScores ==> criteriaScores[c] == CriterionAverage(results, c)
      decreases remaining
    {
      var criterion :| criterion in remaining;
      criteriaScores := criteriaScores[criterion := Round(SumCriterion(results, criterion) / |results| as real) as real];
      remaining := remaining - {criterion};
    }
    v := Validation(avgScore >= Stage3Validate.PASS_SCORE, OneDecimal(avgScore), Some(criteriaScores),
      allErrors, allWarnings, allRecommendations, None, Some(IndividualScores(results)));
  }

  /** Scores within `[0, 100]` give criterion averages within `[0, 100]`. */
  lemma {:induction false} SumCriterionBounds(results: seq<SingleValidation>, criterion: string)
    requires forall k :: 0 <= k < |results| ==> 0.0 <= CriterionScore(results[k].validation, criterion) <= 100.0
    ensures 0.0 <= SumCriterion(results, criterion) <= 100.0 * |results| as real
    decreases |results|
  {
    if results != [] {
      var init := results[..|results| - 1];
      forall k | 0 <= k < |init| ensures 0.0 <= CriterionScore(init[k].validation, criterion) <= 100.0 {
        assert init[k] == results[k];
      }
      SumCriterionBounds(init, criterion);
    }
  }

  lemma {:induction false} CriterionAverageBounds(results: seq<SingleValidation>, criterion: string)
    requires |results| > 0
    requires forall k :: 0 <= k < |results| ==> 0.0 <= CriterionScore(results[k].validation, criterion) <= 100.0
    ensures 0.0 <= CriterionAverage(results, criterion) <= 100.0
  {
    SumCriterionBounds(results, criterion);
    var n := |results| as real;
    var mean := SumCriterion(results, criterion) / n;
    assert 0.0 <= mean <= 100.0 by {
      assert mean * n == SumCriterion(results, criterion);
    }
  }

  /**
   * The reported score and the pass decision can disagree: an average of
   * 69.96 is reported as 70.0 yet does not pass.
   */
  lemma {:induction false} ReportedSeventyCanFail()
    ensures OneDecimal(69.96) == 70.0 && !(69.96 >= Stage3Validate.PASS_SCORE)
  {
    assert 69.96 * 10.0 + 0.5 == 700.1;
    assert Round(69.96 * 10.0) == 700;
  }

  /** A reply the aggregation can read: a failure, or a verdict with its lists and its criteria. */
  predicate Readable(reply: Result<Verdict, string>) {
    reply.Success? ==> WellFormed(reply.value) && reply.value.criteria_scores.Some?
  }

  /** The three `validateSingleAnalog` calls of `Promise.all`, in country order. */
  function Judge(usaAnalog: Analog, russiaAnalog: Analog, chinaAnalog: Analog,
                 usa: Result<Verdict, string>, russia: Result<Verdict, string>, china: Result<Verdict, string>)
    : (rs: seq<SingleValidation>)
    ensures |rs| == 3
    ensures rs[0].country == "USA" && rs[1].country == "Russia" && rs[2].country == "China"
    ensures rs[0].analog == usaAnalog && rs[1].analog == russiaAnalog && rs[2].analog == chinaAnalog
    ensures usa.Failure? ==> rs[0].validation.overall_score == 0.0
    ensures russia.Failure? ==> rs[1].validation.overall_score == 0.0
    ensures china.Failure? ==> rs[2].validation.overall_score == 0.0
    ensures Readable(usa) && Readable(russia) && Readable(china) ==> Aggregatable(rs)
  {
    [ValidateSingleAnalog(usaAnalog, "USA", usa),
     ValidateSingleAnalog(russiaAnalog, "Russia", russia),
     ValidateSingleAnalog(chinaAnalog, "China", china)]
  }

  datatype Outcome = Outcome(analogs: Analogs, validation: Validation, individual_results: seq<SingleValidation>)

  const MISSING_ANALOG := "Cannot read properties of undefined (reading 'grade')"
  const MALFORMED_VERDICT := "Cannot read properties of undefined"

  /** Every country has an analog. */
  predicate AllPresent(analogs: Analogs) {
    Find(analogs, "USA").Some? && Find(analogs, "Russia").Some? && Find(analogs, "China").Some?
  }

  /**
   * `execute(steelGrade, processedData, searchData, config)` given the three
   * replies for USA, Russia and China: a missing analog throws before its
   * validator is called, a verdict the aggregation cannot read throws there,
   * and otherwise the analogs pass through unchanged and the three verdicts
   * are aggregated.
   */
  method Execute(analogs: Analogs, usa: Result<Verdict, string>, russia: Result<Verdict, string>, china: Result<Verdict, string>)
    returns (r: Result<Outcome, string>)
    ensures !AllPresent(analogs) ==> r == Failure(MISSING_ANALOG)
    ensures AllPresent(analogs) && Readable(usa) && Readable(russia) && Readable(china) ==> r.Success?
    ensures r.Success? ==>
      && AllPresent(analogs)
      && r.value.analogs == analogs
      && r.value.individual_results
           == Judge(Find(analogs, "USA").value, Find(analogs, "Russia").value, Find(analogs, "China").value, usa, russia, china)
      && (r.value.validation.passed <==> Average(r.value.individual_results) >= Stage3Validate.PASS_SCORE)
      && r.value.validation.overall_score == OneDecimal(Average(r.value.individual_results))
    ensures r.Success? ==>
      && r.value.validation.errors == AllMessages(r.value.individual_results, Errors)
      && r.value.validation.warnings == AllMessages(r.value.individual_results, Warnings)
      && r.value.validation.recommendations == AllMessages(r.value.individual_results, Recommendations)
      && r.value.validation.criteria.Some?
      && r.value.validation.criteria.value.Keys == CriteriaNames(r.value.individual_results)
      && (forall c :: c in r.value.validation.criteria.value ==>
            r.value.validation.criteria.value[c] == CriterionAverage(r.value.individual_results, c))
      && r.value.validation.individual_scores == Some(IndividualScores(r.value.individual_results))
      && r.value.validation.checks_performed.None?
    ensures AllPresent(analogs) && r.Failure? ==>
      && r == Failure(MALFORMED_VERDICT)
      && !Aggregatable(Judge(Find(analogs, "USA").value, Find(analogs, "Russia").value, Find(analogs, "China").value,
                             usa, russia, china))
  {
    if !AllPresent(analogs) {
      return Failure(MISSING_ANALOG);
    }
    var validationResults := Judge(Find(analogs, "USA").value, Find(analogs, "Russia").value, Find(analogs, "China").value,
      usa, russia, china);
    if !Aggregatable(validationResults) {
      return Failure(MALFORMED_VERDICT);
    }
    var aggregated := AggregateValidations(validationResults);
    r := Success(Outcome(analogs, aggregated, validationResults));
  }
}
