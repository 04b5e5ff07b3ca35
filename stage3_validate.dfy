/**
 * Stage 3 with a single validator call: the validator's reply becomes the
 * validation record, with the pass decision recomputed from the score.
 */
module Stage3Validate {
  import opened Wrappers
  import opened Model

  /** The score from which a validation passes. */
  const PASS_SCORE: real := 70.0

  /** The fixed number of checks the record reports. */
  const CHECKS_PERFORMED: int := 8

  /** What stage 2 hands over: the analogs and, optionally, how many iterations it used. */
  datatype Processed = Processed(analogs: Analogs, iterations_used: Option<int>)

  datatype Outcome = Outcome(analogs: Analogs, validation: Validation, iterations_used: int)

  /** The `validation` record built from a validator reply. */
  function Normalize(v: Verdict): (r: Validation)
    ensures r.passed <==> v.overall_score >= PASS_SCORE
    ensures r.overall_score == v.overall_score && r.criteria == v.criteria_scores
    ensures v.errors.Some? ==> r.errors == v.errors.value
    ensures v.errors.None? ==> r.errors == []
    ensures v.warnings.Some? ==> r.warnings == v.warnings.value
    ensures v.warnings.None? ==> r.warnings == []
    ensures v.recommendations.Some? ==> r.recommendations == v.recommendations.value
    ensures v.recommendations.None? ==> r.recommendations == []
    ensures r.checks_performed == Some(CHECKS_PERFORMED) && r.individual_scores.None?
  {
    Validation(v.overall_score >= PASS_SCORE, v.overall_score, v.criteria_scores,
      ListOr(v.errors), ListOr(v.warnings), ListOr(v.recommendations), Some(CHECKS_PERFORMED), None)
  }

  /** The validator's own `passed` flag is ignored: only the score decides. */
  lemma {:induction false} PassedFlagIgnored(v: Verdict, flag: Option<bool>)
    ensures Normalize(v.(passed := flag)) == Normalize(v)
  {
  }

  /** Raising the score never turns a passing validation into a failing one. */
  lemma {:induction false} PassedMonotone(v: Verdict, better: real)
    requires better >= v.overall_score
    ensures Normalize(v).passed ==> Normalize(v.(overall_score := better)).passed
  {
  }

  /**
   * `execute(steelGrade, processedData, searchData, config)` given the
   * validator's reply: the analogs pass through unchanged, `iterations_used`
   * defaults to 1, and a failed call is passed on.
   */
  function Execute(processed: Processed, reply: Result<Verdict, string>): (r: Result<Outcome, string>)
    ensures r.Failure? <==> reply.Failure?
    ensures r.Failure? ==> r.error == reply.error
    ensures r.Success? ==>
      && r.value.analogs == processed.analogs
      && r.value.validation == Normalize(reply.value)
      && r.value.iterations_used == NumberOr(processed.iterations_used, 1)
      && r.value.iterations_used != 0
  {
    match reply
    case Failure(e) => Failure(e)
    case Success(v) => Success(Outcome(processed.analogs, Normalize(v), NumberOr(processed.iterations_used, 1)))
  }
}
