/**
 * Stage 2 with a single extraction call: the backend's analogs are enriched
 * locally, country by country, with the steel class, carbon equivalent,
 * weldability and popularity computed from their composition and grade.
 */
module Stage2Process {
  import opened Wrappers
  import opened Model
  import opened SteelUtils

  /** `grade.toUpperCase()` on a missing grade throws. */
  const MISSING_GRADE_ERROR: string := "Cannot read properties of undefined (reading 'toUpperCase')"

  /**
   * A popularity rating `(grade, country) -> key`. `AssessPopularity` is the
   * one stage2_process.js calls; `AssessPopularityExactFirst` is the corrected
   * rating (Findings, utils.js), which `Execute` uses.
   */
  type Rating = (string, string) -> string

  /** The derived fields of `a` are the ones its composition and grade determine. */
  predicate Enriched(a: Analog, country: string, rate: Rating) {
    && a.composition.Some? && a.grade.Some?
    && a.steel_class == Some(FormatSteelClass(ClassifySteelGrade(a.composition.value)))
    && a.carbon_equivalent == Some(CalculateCE(a.composition.value))
    && a.weldability == Some(FormatWeldability(AssessWeldability(CalculateCE(a.composition.value))))
    && a.popularity == Some(FormatPopularity(rate(a.grade.value, country)))
  }

  /**
   * The enrichment as written rates the medium-listed Russian grade `40Х13`
   * `Высокая`, because the high-list entry `40` is found inside it; with the
   * corrected rating it is `Средняя`.
   */
  lemma {:induction false} AsWrittenEnrichmentRatesMediumHigh(a: Analog)
    requires a.composition.Some? && a.grade == Some("40Х13")
    ensures EnhanceAnalog(a, "Russia", AssessPopularity).value.popularity == Some("Высокая")
    ensures EnhanceAnalog(a, "Russia", AssessPopularityExactFirst).value.popularity == Some("Средняя")
  {
    AsWrittenRatesHigh(a);
    ExactFirstRatesMedium(a);
  }

  lemma {:induction false} AsWrittenRatesHigh(a: Analog)
    requires a.composition.Some? && a.grade == Some("40Х13")
    ensures EnhanceAnalog(a, "Russia", AssessPopularity).value.popularity == Some("Высокая")
  {
    assert AssessPopularity("40Х13", "Russia") == "high" by {
      MediumListedGetsHigh();
    }
    RatedPopularity(a, "Russia", AssessPopularity);
    HighLabel();
  }

  /** The label of a high rating. */
  lemma {:induction false} MediumLabel()
    ensures FormatPopularity("medium") == "Средняя"
  {
    assert "medium" in POPULARITY_LABELS;
    assert POPULARITY_LABELS["medium"] == "Средняя";
  }

  lemma {:induction false} HighLabel()
    ensures FormatPopularity("high") == "Высокая"
  {
    assert "high" in POPULARITY_LABELS;
    assert POPULARITY_LABELS["high"] == "Высокая";
  }

  lemma {:induction false} ExactFirstRatesMedium(a: Analog)
    requires a.composition.Some? && a.grade == Some("40Х13")
    ensures EnhanceAnalog(a, "Russia", AssessPopularityExactFirst).value.popularity == Some("Средняя")
  {
    FortyThirteenStaysMedium();
    RatedPopularity(a, "Russia", AssessPopularityExactFirst);
    MediumLabel();
  }

  /** The popularity an enrichment writes is the label of the rating's key. */
  lemma {:induction false} RatedPopularity(a: Analog, country: string, rate: Rating)
    requires a.composition.Some? && a.grade.Some?
    ensures EnhanceAnalog(a, country, rate).Success?
    ensures EnhanceAnalog(a, country, rate).value.popularity == Some(FormatPopularity(rate(a.grade.value, country)))
  {
  }

  /** `b` agrees with `a` on every field the enrichment does not write. */
  predicate SameData(a: Analog, b: Analog) {
    a.grade == b.grade && a.standard == b.standard && a.composition == b.composition
    && a.mechanical == b.mechanical && a.data_sources == b.data_sources && a.error == b.error
    && a.improvements_made == b.improvements_made
  }

  /**
   * The body of the loop in `enhanceResults` for one analog: nothing happens
   * without a composition; otherwise the four derived fields are written, and
   * a missing grade makes the popularity lookup throw.
   */
  function EnhanceAnalog(a: Analog, country: string, rate: Rating): (r: Result<Analog, string>)
    ensures a.composition.None? ==> r == Success(a)
    ensures a.composition.Some? ==> (r.Failure? <==> a.grade.None?)
    ensures a.composition.Some? && r.Success? ==> Enriched(r.value, country, rate) && SameData(a, r.value)
  {
    match a.composition
    case None => Success(a)
    case Some(comp) =>
      var steelClass := ClassifySteelGrade(comp);
      var ce := CalculateCE(comp);
      match a.grade
      case None => Failure(MISSING_GRADE_ERROR)
      case Some(g) =>
        Success(a.(steel_class := Some(FormatSteelClass(steelClass)),
                   carbon_equivalent := Some(ce),
                   weldability := Some(FormatWeldability(AssessWeldability(ce))),
                   popularity := Some(FormatPopularity(rate(g, country)))))
  }

  /** Enriching an analog a second time changes nothing. */
  lemma {:induction false} EnhanceIdempotent(a: Analog, country: string, rate: Rating)
    requires Enriched(a, country, rate)
    ensures EnhanceAnalog(a, country, rate) == Success(a)
  {
  }

  /** One pass of the loop: the analog of `country`, if any, is enriched in place. */
  function Step(analogs: Analogs, country: string, rate: Rating): Result<Analogs, string> {
    match Find(analogs, country)
    case None => Success(analogs)
    case Some(a) =>
      match EnhanceAnalog(a, country, rate)
      case Failure(e) => Failure(e)
      case Success(b) => Success(Put(analogs, country, b))
  }

  /** The loop over `countries`, stopping at the first error. */
  function EnhanceFrom(analogs: Analogs, countries: seq<string>, rate: Rating): Result<Analogs, string>
    decreases |countries|
  {
    if countries == [] then Success(analogs)
    else
      match Step(analogs, countries[0], rate)
      case Failure(e) => Failure(e)
      case Success(next) => EnhanceFrom(next, countries[1..], rate)
  }

  /** `enhanceResults(result)` for the result's `analogs`, over USA, Russia and China. */
  method EnhanceResults(analogs: Option<Analogs>, rate: Rating) returns (r: Result<Option<Analogs>, string>)
    ensures analogs.None? ==> r == Success(None)
    ensures analogs.Some? ==>
      match EnhanceFrom(analogs.value, COUNTRIES, rate)
      case Success(v) => r == Success(Some(v))
      case Failure(e) => r == Failure(e)
  {
    if analogs.None? {
      return Success(None);
    }
    var enhanced := analogs.value;
    var i := 0;
    while i < |COUNTRIES|
      invariant 0 <= i <= |COUNTRIES|
      invariant EnhanceFrom(enhanced, COUNTRIES[i..], rate) == EnhanceFrom(analogs.value, COUNTRIES, rate)
    {
      var country := COUNTRIES[i];
      assert COUNTRIES[i..][1..] == COUNTRIES[i + 1..];
      var found := Find(enhanced, country);
      if found.Some? {
        var analog := found.value;
        var updated := EnhanceAnalog(analog, country, rate);
        if updated.Failure? {
          return Failure(updated.error);
        }
        enhanced := Put(enhanced, country, updated.value);
      }
      i := i + 1;
    }
    return Success(Some(enhanced));
  }

  /**
   * What the loop guarantees when it completes: each visited country keeps or
   * lacks its analog as before, an analog with a composition comes out
   * enriched, one without is untouched, and every other country is untouched.
   */
  lemma {:induction false} EnhanceFromSpec(analogs: Analogs, countries: seq<string>, rate: Rating)
    requires forall i, j :: 0 <= i < j < |countries| ==> countries[i] != countries[j]
    ensures EnhanceFrom(analogs, countries, rate).Success? ==>
      var r := EnhanceFrom(analogs, countries, rate).value;
      && |r| == |analogs|
      && (forall c :: c !in countries ==> Find(r, c) == Find(analogs, c))
      && (forall c :: c in countries ==> (Find(r, c).Some? <==> Find(analogs, c).Some?))
      && (forall c :: c in countries && Find(analogs, c).Some? && Find(analogs, c).value.composition.None? ==>
            Find(r, c) == Find(analogs, c))
      && (forall c :: c in countries && Find(analogs, c).Some? && Find(analogs, c).value.composition.Some? ==>
            Enriched(Find(r, c).value, c, rate) && SameData(Find(analogs, c).value, Find(r, c).value))
    decreases |countries|
  {
    if countries != [] && Step(analogs, countries[0], rate).Success? {
      var next := Step(analogs, countries[0], rate).value;
      StepSpec(analogs, countries[0], rate);
      EnhanceFromSpec(next, countries[1..], rate);
      assert forall c :: c in countries <==> c == countries[0] || c in countries[1..];
      assert countries[0] !in countries[1..];
    }
  }

  /** One step of the loop changes the country's analog, as `EnhanceAnalog` does, and no other. */
  lemma {:induction false} StepSpec(analogs: Analogs, country: string, rate: Rating)
    requires Step(analogs, country, rate).Success?
    ensures var next := Step(analogs, country, rate).value;
      && |next| == |analogs|
      && (forall c :: c != country ==> Find(next, c) == Find(analogs, c))
      && (Find(next, country).Some? <==> Find(analogs, country).Some?)
      && (Find(analogs, country).Some? && Find(analogs, country).value.composition.None? ==>
            Find(next, country) == Find(analogs, country))
      && (Find(analogs, country).Some? && Find(analogs, country).value.composition.Some? ==>
            Enriched(Find(next, country).value, country, rate) && SameData(Find(analogs, country).value, Find(next, country).value))
  {
    if Find(analogs, country).Some? {
      var a := Find(analogs, country).value;
      var b := EnhanceAnalog(a, country, rate).value;
      assert Step(analogs, country, rate).value == Put(analogs, country, b);
    }
  }

  /** The output of stage 2. */
  datatype Processed = Processed(analogs: Option<Analogs>, iterations_used: int, model_used: string)

  /**
   * `execute(steelGrade, searchData, config)` given the backend's reply:
   * `deepseek_model || 'deepseek-chat'` is used, and the enriched result
   * reports one iteration and that model; a failed call or enrichment is
   * passed on. Popularity is rated with the corrected
   * `AssessPopularityExactFirst`; `EnhanceAnalog` with `AssessPopularity` is
   * the enrichment as written.
   */
  method Execute(reply: Result<Option<Analogs>, string>, configuredModel: Option<string>) returns (r: Result<Processed, string>)
    ensures reply.Failure? ==> r == Failure(reply.error)
    ensures r.Success? ==> r.value.iterations_used == 1 && r.value.model_used == TextOr(configuredModel, "deepseek-chat")
    ensures reply.Success? && reply.value.None? ==> r.Success? && r.value.analogs.None?
    ensures reply.Success? && reply.value.Some? ==>
      (r.Success? <==> EnhanceFrom(reply.value.value, COUNTRIES, AssessPopularityExactFirst).Success?)
      && (r.Success? ==> r.value.analogs == Some(EnhanceFrom(reply.value.value, COUNTRIES, AssessPopularityExactFirst).value))
  {
    var model := TextOr(configuredModel, "deepseek-chat");
    if reply.Failure? {
      return Failure(reply.error);
    }
    var enhanced := EnhanceResults(reply.value, AssessPopularityExactFirst);
    if enhanced.Failure? {
      return Failure(enhanced.error);
    }
    r := Success(Processed(enhanced.value, 1, model));
  }
}
