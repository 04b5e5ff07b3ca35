/**
 * The analog search controller: a cache lookup (with a late translation of
 * an old entry), then up to three attempts (the chat model, the reasoner
 * with a targeted search, the fallback model), keeping the best-scoring
 * attempt, then translation of the result texts into Russian and a gated
 * cache write. Every stage is an oracle: a `Failure` stands for an
 * exception the stage throws.
 */
module SearchEngine {
  import opened Wrappers
  import opened Sorting
  import opened Model
  import opened Translator
  import Text
  import opened CacheManager

  /** At most three attempts ever run. */
  const MAX_ATTEMPTS: nat := 3

  const CHAT_MODEL := "deepseek-chat"
  const REASONER_MODEL := "deepseek-reasoner"
  const FALLBACK_MODEL := "gpt-4o-mini"

  /** What reading `analogs.USA.grade` (or Russia's, or China's) throws when that analog is missing. */
  const MISSING_ANALOG: string := "Cannot read properties of undefined (reading 'grade')"

  /** The settings the controller reads. */
  datatype EngineConfig = EngineConfig(
    cache_enabled: bool,
    escalation_threshold: Option<real>,
    search_strategy: Option<string>,
    use_separate_prompts: Option<bool>)

  /** `config.escalation_threshold || 85`: a missing or zero threshold means 85. */
  function Threshold(configured: Option<real>): (t: real)
    ensures configured.Some? && configured.value != 0.0 ==> t == configured.value
    ensures configured.None? || configured.value == 0.0 ==> t == 85.0
  {
    if configured.Some? && configured.value != 0.0 then configured.value else 85.0
  }

  /** The attempt-1 strategy of stage 2. */
  datatype Strategy = SeparatePrompts | Sequential | Parallel

  /** `config.use_separate_prompts !== false`: separate prompts unless switched off. */
  predicate UsesSeparatePrompts(cfg: EngineConfig) {
    cfg.use_separate_prompts != Some(false)
  }

  /** Separate prompts win; otherwise `search_strategy === 'sequential'`; otherwise the parallel stage. */
  function ChooseStrategy(cfg: EngineConfig): (s: Strategy)
    ensures s == SeparatePrompts <==> UsesSeparatePrompts(cfg)
    ensures s == Sequential <==> !UsesSeparatePrompts(cfg) && cfg.search_strategy == Some("sequential")
  {
    if UsesSeparatePrompts(cfg) then SeparatePrompts
    else if cfg.search_strategy == Some("sequential") then Sequential
    else Parallel
  }

  /** What stage 1 hands on. */
  datatype SearchData = SearchData(sources_count: int)

  /** What a stage-2 run hands on: its analogs and how many iterations it used. */
  datatype Processed = Processed(analogs: Analogs, iterations_used: Option<int>)

  /** One completed attempt: the stage-2 output and its stage-3 validation. */
  datatype Trial = Trial(processed: Processed, validated: Validated)

  function Score(t: Trial): real {
    t.validated.validation.overall_score
  }

  /**
   * The stages, each given what the code passes it. `validate` takes whether
   * the separate-prompt validator is to be used; `improve` is the targeted
   * search followed by the reasoner.
   */
  datatype Stages = Stages(
    search: string -> Result<SearchData, string>,
    process: (Strategy, string, SearchData) -> Result<Processed, string>,
    validate: (bool, string, Processed, SearchData) -> Result<Validated, string>,
    improve: (string, SearchData, Processed, Validation) -> Result<Processed, string>,
    fallback: (string, SearchData) -> Result<Processed, string>)

  /**
   * Attempt 1: the configured stage 2, whose three grades are then logged
   * (a missing analog throws there), then the configured validator.
   */
  function Attempt1(st: Stages, grade: string, cfg: EngineConfig, data: SearchData): (r: Result<Trial, string>)
    ensures var p := st.process(ChooseStrategy(cfg), grade, data);
      && (p.Failure? ==> r == Failure(p.error))
      && (p.Success? && !HasAllCountries(p.value.analogs) ==> r == Failure(MISSING_ANALOG))
    ensures r.Success? ==>
      && st.process(ChooseStrategy(cfg), grade, data) == Success(r.value.processed)
      && HasAllCountries(r.value.processed.analogs)
      && st.validate(UsesSeparatePrompts(cfg), grade, r.value.processed, data) == Success(r.value.validated)
  {
    match st.process(ChooseStrategy(cfg), grade, data)
    case Failure(e) => Failure(e)
    case Success(p) =>
      if !HasAllCountries(p.analogs) then Failure(MISSING_ANALOG) else
      match st.validate(UsesSeparatePrompts(cfg), grade, p, data)
      case Failure(e) => Failure(e)
      case Success(v) => Success(Trial(p, v))
  }

  /**
   * Attempt 2: targeted search and the reasoner, then the single-prompt
   * validator, then a log of the improved analogs. Any failure in the block,
   * a missing analog included, is caught: `None`.
   */
  function Attempt2(st: Stages, grade: string, data: SearchData, first: Trial): (r: Option<Trial>)
    ensures st.improve(grade, data, first.processed, first.validated.validation).Failure? ==> r.None?
    ensures r.Some? ==>
      && st.improve(grade, data, first.processed, first.validated.validation) == Success(r.value.processed)
      && HasAllCountries(r.value.processed.analogs)
      && st.validate(false, grade, r.value.processed, data) == Success(r.value.validated)
  {
    match st.improve(grade, data, first.processed, first.validated.validation)
    case Failure(_) => None
    case Success(p) =>
      match st.validate(false, grade, p, data)
      case Failure(_) => None
      case Success(v) => if HasAllCountries(p.analogs) then Some(Trial(p, v)) else None
  }

  /** Attempt 3: the fallback stage 2, then the configured validator. */
  function Attempt3(st: Stages, grade: string, cfg: EngineConfig, data: SearchData): (r: Result<Trial, string>)
    ensures st.fallback(grade, data).Failure? ==> r == Failure(st.fallback(grade, data).error)
    ensures r.Success? ==>
      && st.fallback(grade, data) == Success(r.value.processed)
      && st.validate(UsesSeparatePrompts(cfg), grade, r.value.processed, data) == Success(r.value.validated)
  {
    match st.fallback(grade, data)
    case Failure(e) => Failure(e)
    case Success(p) =>
      match st.validate(UsesSeparatePrompts(cfg), grade, p, data)
      case Failure(e) => Failure(e)
      case Success(v) => Success(Trial(p, v))
  }

  /** The completed attempt whose record is returned, and the last attempt tried with its model. */
  datatype Outcome = Outcome(final: Trial, attempts: nat, model: string)

  /** The attempts completed before attempt 3 is considered. */
  function Completed(first: Trial, second: Option<Trial>): (r: seq<Trial>)
    ensures 1 <= |r| <= 2 && r[0] == first
    ensures second.Some? <==> |r| == 2
    ensures second.Some? ==> r[1] == second.value
  {
    if second.Some? then [first, second.value] else [first]
  }

  /**
   * The escalation, stated through the best attempt rather than through the
   * running comparison: the returned record is the earliest completed
   * attempt with the highest score. Attempt 2 runs when attempt 1 scored
   * below the threshold, attempt 3 when the best so far still does.
   */
  function Escalation(st: Stages, grade: string, cfg: EngineConfig, data: SearchData): (r: Result<Outcome, string>)
    ensures Attempt1(st, grade, cfg, data).Failure? ==> r == Failure(Attempt1(st, grade, cfg, data).error)
    ensures r.Success? ==>
      || (r.value.attempts == 1 && r.value.model == CHAT_MODEL && r.value.final == Attempt1(st, grade, cfg, data).value)
      || (r.value.attempts == 2 && r.value.model == REASONER_MODEL)
      || (r.value.attempts == 3 && r.value.model == FALLBACK_MODEL)
    ensures r.Success? && r.value.attempts < 3 ==> Score(r.value.final) >= Threshold(cfg.escalation_threshold)
  {
    match Attempt1(st, grade, cfg, data)
    case Failure(e) => Failure(e)
    case Success(first) =>
      if Score(first) >= Threshold(cfg.escalation_threshold) then Success(Outcome(first, 1, CHAT_MODEL))
      else AfterSecond(st, grade, cfg, data, Completed(first, Attempt2(st, grade, data, first)))
  }

  /** The escalation once attempt 2 has been tried, given the attempts completed so far. */
  function AfterSecond(st: Stages, grade: string, cfg: EngineConfig, data: SearchData, done: seq<Trial>): (r: Result<Outcome, string>)
    requires |done| > 0
    ensures r.Failure? ==> Attempt3(st, grade, cfg, data).Failure? && r.error == Attempt3(st, grade, cfg, data).error
    ensures r.Success? && r.value.attempts == 2 ==>
      && r.value.model == REASONER_MODEL && r.value.final in done
      && Score(r.value.final) >= Threshold(cfg.escalation_threshold)
    ensures r.Success? && r.value.attempts != 2 ==>
      && r.value.attempts == 3 && r.value.model == FALLBACK_MODEL && Attempt3(st, grade, cfg, data).Success?
      && (r.value.final in done || r.value.final == Attempt3(st, grade, cfg, data).value)
    ensures r.Success? ==> forall t :: t in done ==> Score(t) <= Score(r.value.final)
  {
    var best := done[FirstMaxIndex(done, Score)];
    if Score(best) >= Threshold(cfg.escalation_threshold) then Success(Outcome(best, 2, REASONER_MODEL))
    else
      match Attempt3(st, grade, cfg, data)
      case Failure(e) => Failure(e)
      case Success(third) =>
        var all := done + [third];
        assert all[..|done|] == done;
        assert forall t :: t in done ==> Score(t) <= Score(all[FirstMaxIndex(all, Score)]);
        Success(Outcome(all[FirstMaxIndex(all, Score)], 3, FALLBACK_MODEL))
  }

  /** The first index of a maximum is the only index that is a maximum with every earlier key lower. */
  lemma {:induction false} FirstMaxUnique<T>(s: seq<T>, key: T -> real, k: nat)
    requires k < |s|
    requires forall j :: 0 <= j < |s| ==> key(s[j]) <= key(s[k])
    requires forall j :: 0 <= j < k ==> key(s[j]) < key(s[k])
    ensures FirstMaxIndex(s, key) == k
  {
  }

  /** Appending one element moves the first maximum to it exactly when it beats the old one. */
  lemma {:induction false} FirstMaxSnoc<T>(s: seq<T>, x: T, key: T -> real)
    requires |s| > 0
    ensures var k := FirstMaxIndex(s, key);
      (s + [x])[FirstMaxIndex(s + [x], key)] == if key(x) > key(s[k]) then x else s[k]
  {
    var all, k := s + [x], FirstMaxIndex(s, key);
    assert forall j :: 0 <= j < |s| ==> all[j] == s[j];
    if key(x) > key(s[k]) {
      FirstMaxUnique(all, key, |s|);
    } else {
      FirstMaxUnique(all, key, k);
    }
  }

  /** The attempt-1 block: the configured stage 2, the grade log, then the configured validator. */
  method RunFirst(st: Stages, grade: string, cfg: EngineConfig, data: SearchData) returns (r: Result<Trial, string>)
    ensures r == Attempt1(st, grade, cfg, data)
  {
    var processed := st.process(ChooseStrategy(cfg), grade, data);
    if processed.Failure? {
      return Failure(processed.error);
    }
    if !HasAllCountries(processed.value.analogs) {
      return Failure(MISSING_ANALOG);
    }
    var validated := st.validate(UsesSeparatePrompts(cfg), grade, processed.value, data);
    if validated.Failure? {
      return Failure(validated.error);
    }
    r := Success(Trial(processed.value, validated.value));
  }

  /** The attempt-2 `try` block; a thrown error is caught and yields nothing. */
  method RunSecond(st: Stages, grade: string, data: SearchData, first: Trial) returns (r: Option<Trial>)
    ensures r == Attempt2(st, grade, data, first)
  {
    var improved := st.improve(grade, data, first.processed, first.validated.validation);
    if improved.Failure? {
      return None;
    }
    var validated := st.validate(false, grade, improved.value, data);
    if validated.Failure? || !HasAllCountries(improved.value.analogs) {
      return None;
    }
    r := Some(Trial(improved.value, validated.value));
  }

  /** The attempt-3 block: the fallback stage 2, then the configured validator. */
  method RunThird(st: Stages, grade: string, cfg: EngineConfig, data: SearchData) returns (r: Result<Trial, string>)
    ensures r == Attempt3(st, grade, cfg, data)
  {
    var processed := st.fallback(grade, data);
    if processed.Failure? {
      return Failure(processed.error);
    }
    var validated := st.validate(UsesSeparatePrompts(cfg), grade, processed.value, data);
    if validated.Failure? {
      return Failure(validated.error);
    }
    r := Success(Trial(processed.value, validated.value));
  }

  /** The escalation after an attempt 1 below the threshold. */
  lemma {:induction false} EscalationBelowFirst(st: Stages, grade: string, cfg: EngineConfig, data: SearchData, first: Trial)
    requires Attempt1(st, grade, cfg, data) == Success(first)
    requires Score(first) < Threshold(cfg.escalation_threshold)
    ensures Escalation(st, grade, cfg, data) == AfterSecond(st, grade, cfg, data, Completed(first, Attempt2(st, grade, data, first)))
  {
  }

  /** Attempt 3 is skipped when the best of the first two reaches the threshold. */
  lemma {:induction false} AfterSecondStops(st: Stages, grade: string, cfg: EngineConfig, data: SearchData, done: seq<Trial>, k: nat)
    requires |done| > 0 && k == FirstMaxIndex(done, Score)
    requires Score(done[k]) >= Threshold(cfg.escalation_threshold)
    ensures AfterSecond(st, grade, cfg, data, done) == Success(Outcome(done[k], 2, REASONER_MODEL))
  {
  }

  /** A failing attempt 3 fails the escalation. */
  lemma {:induction false} AfterSecondFails(st: Stages, grade: string, cfg: EngineConfig, data: SearchData, done: seq<Trial>)
    requires |done| > 0
    requires Score(done[FirstMaxIndex(done, Score)]) < Threshold(cfg.escalation_threshold)
    requires Attempt3(st, grade, cfg, data).Failure?
    ensures AfterSecond(st, grade, cfg, data, done) == Failure(Attempt3(st, grade, cfg, data).error)
  {
  }

  /** A completed attempt 3 joins the comparison. */
  lemma {:induction false} AfterSecondThird(st: Stages, grade: string, cfg: EngineConfig, data: SearchData, done: seq<Trial>, third: Trial)
    requires |done| > 0
    requires Score(done[FirstMaxIndex(done, Score)]) < Threshold(cfg.escalation_threshold)
    requires Attempt3(st, grade, cfg, data) == Success(third)
    ensures AfterSecond(st, grade, cfg, data, done) ==
      Success(Outcome((done + [third])[FirstMaxIndex(done + [third], Score)], 3, FALLBACK_MODEL))
  {
  }

  /**
   * The controller's attempts, each result replacing the best record only
   * when it scores strictly higher. Attempt 1 and attempt 3 failures
   * propagate; an attempt 2 failure resumes from the best record.
   */
  method Escalate(st: Stages, grade: string, cfg: EngineConfig, data: SearchData) returns (r: Result<Outcome, string>)
    ensures r == Escalation(st, grade, cfg, data)
  {
    var firstResult := RunFirst(st, grade, cfg, data);
    if firstResult.Failure? {
      return Failure(firstResult.error);
    }
    var first := firstResult.value;
    if Score(first) < Threshold(cfg.escalation_threshold) {
      EscalationBelowFirst(st, grade, cfg, data, first);
      r := EscalateToReasoner(st, grade, cfg, data, first);
    } else {
      r := Success(Outcome(first, 1, CHAT_MODEL));
    }
  }

  /** Attempt 2 and what follows it, from an attempt 1 below the threshold. */
  method EscalateToReasoner(st: Stages, grade: string, cfg: EngineConfig, data: SearchData, first: Trial)
    returns (r: Result<Outcome, string>)
    ensures r == AfterSecond(st, grade, cfg, data, Completed(first, Attempt2(st, grade, data, first)))
  {
    var best := first;
    var second := RunSecond(st, grade, data, first);
    ghost var done := Completed(first, second);
    if second.Some? && Score(second.value) > Score(best) {
      best := second.value;
      FirstMaxUnique(done, Score, 1);
    } else {
      FirstMaxUnique(done, Score, 0);
    }
    if Score(best) < Threshold(cfg.escalation_threshold) {
      r := EscalateToFallback(st, grade, cfg, data, done, best);
    } else {
      AfterSecondStops(st, grade, cfg, data, done, FirstMaxIndex(done, Score));
      r := Success(Outcome(best, 2, REASONER_MODEL));
    }
  }

  /** Attempt 3, from a best record still below the threshold. */
  method EscalateToFallback(st: Stages, grade: string, cfg: EngineConfig, data: SearchData, ghost done: seq<Trial>, best: Trial)
    returns (r: Result<Outcome, string>)
    requires |done| > 0 && best == done[FirstMaxIndex(done, Score)]
    requires Score(best) < Threshold(cfg.escalation_threshold)
    ensures r == AfterSecond(st, grade, cfg, data, done)
  {
    var thirdResult := RunThird(st, grade, cfg, data);
    if thirdResult.Failure? {
      AfterSecondFails(st, grade, cfg, data, done);
      return Failure(thirdResult.error);
    }
    var third := thirdResult.value;
    AfterSecondThird(st, grade, cfg, data, done, third);
    FirstMaxSnoc(done, third, Score);
    if Score(third) > Score(best) {
      r := Success(Outcome(third, 3, FALLBACK_MODEL));
    } else {
      r := Success(Outcome(best, 3, FALLBACK_MODEL));
    }
  }

  /** At most three attempts run, and each later one runs only below the threshold. */
  lemma {:induction false} EscalationAttempts(st: Stages, grade: string, cfg: EngineConfig, data: SearchData)
    requires Attempt1(st, grade, cfg, data).Success?
    ensures var r := Escalation(st, grade, cfg, data);
      var first := Attempt1(st, grade, cfg, data).value;
      && (r.Success? ==> 1 <= r.value.attempts <= MAX_ATTEMPTS)
      && (Score(first) >= Threshold(cfg.escalation_threshold) <==> r.Success? && r.value.attempts == 1)
      && (r.Failure? ==> Attempt3(st, grade, cfg, data).Failure?)
  {
  }

  /**
   * The returned record is the best completed attempt: no completed attempt
   * scored higher, and it is one of them.
   */
  lemma {:induction false} EscalationKeepsBest(st: Stages, grade: string, cfg: EngineConfig, data: SearchData)
    requires Escalation(st, grade, cfg, data).Success?
    ensures var out := Escalation(st, grade, cfg, data).value;
      var first := Attempt1(st, grade, cfg, data).value;
      var second := Attempt2(st, grade, data, first);
      && Score(out.final) >= Score(first)
      && (out.attempts >= 2 && second.Some? ==> Score(out.final) >= Score(second.value))
      && (out.attempts == 3 ==> Score(out.final) >= Score(Attempt3(st, grade, cfg, data).value))
      && (out.final == first
          || (out.attempts >= 2 && second.Some? && out.final == second.value)
          || (out.attempts == 3 && out.final == Attempt3(st, grade, cfg, data).value))
  {
    var first := Attempt1(st, grade, cfg, data).value;
    if Score(first) < Threshold(cfg.escalation_threshold) {
      var done := Completed(first, Attempt2(st, grade, data, first));
      var k := FirstMaxIndex(done, Score);
      assert Score(done[k]) >= Score(done[0]);
      if Score(done[k]) < Threshold(cfg.escalation_threshold) {
        FirstMaxSnoc(done, Attempt3(st, grade, cfg, data).value, Score);
        assert |done| == 2 ==> Score(done[k]) >= Score(done[1]);
      }
    }
  }

  /**
   * Attempts 1 and 2 are only ever completed with all three analogs, so the
   * final grade log can throw only on a record from the fallback attempt.
   */
  lemma {:induction false} OnlyFallbackLacksAnalog(st: Stages, grade: string, cfg: EngineConfig, data: SearchData)
    requires Escalation(st, grade, cfg, data).Success?
    requires !HasAllCountries(Escalation(st, grade, cfg, data).value.final.processed.analogs)
    ensures Escalation(st, grade, cfg, data).value.attempts == 3
    ensures Escalation(st, grade, cfg, data).value.final == Attempt3(st, grade, cfg, data).value
  {
    EscalationKeepsBest(st, grade, cfg, data);
  }

  /** A tie keeps the earlier attempt: a reasoner result that only equals attempt 1 is not taken. */
  lemma {:induction false} TieKeepsEarlier(st: Stages, grade: string, cfg: EngineConfig, data: SearchData)
    requires Attempt1(st, grade, cfg, data).Success?
    requires var first := Attempt1(st, grade, cfg, data).value;
      && Score(first) < Threshold(cfg.escalation_threshold)
      && Attempt2(st, grade, data, first).Some?
      && Score(Attempt2(st, grade, data, first).value) == Score(first)
    ensures var first := Attempt1(st, grade, cfg, data).value;
      var r := Escalation(st, grade, cfg, data);
      r.Success? ==> r.value.final == first || r.value.attempts == 3
  {
    var first := Attempt1(st, grade, cfg, data).value;
    var done := Completed(first, Attempt2(st, grade, data, first));
    FirstMaxUnique(done, Score, 0);
  }

  /** `pipeline` of the final result. */
  datatype PipelineInfo = PipelineInfo(
    stage1_sources: int,
    stage2_iterations: int,
    stage2_attempts: nat,
    stage2_model_used: string,
    stage3_checks: int)

  /** The record `findSteelAnalogs` returns and caches. */
  datatype FinalResult = FinalResult(
    status: string,
    steel_input: string,
    analogs: Analogs,
    validation: Validation,
    pipeline: PipelineInfo,
    cached: bool,
    timestamp: string)

  /** `n || d` on a number. */
  function IntOr(n: Option<int>, d: int): int {
    if n.Some? && n.value != 0 then n.value else d
  }

  /**
   * The final record: `'success'` exactly when the returned validation
   * passed; the analogs and validation of the best attempt; the attempt
   * count and model of the last attempt tried.
   */
  function Finalize(grade: string, data: SearchData, out: Outcome, timestamp: string): (f: FinalResult)
    ensures f.status == "success" <==> out.final.validated.validation.passed
    ensures f.status != "success" ==> f.status == "partial_success"
    ensures f.analogs == out.final.validated.analogs && f.validation == out.final.validated.validation
    ensures f.pipeline.stage2_attempts == out.attempts && f.pipeline.stage2_model_used == out.model
    ensures !f.cached
  {
    var v := out.final.validated.validation;
    FinalResult(
      if v.passed then "success" else "partial_success",
      grade,
      out.final.validated.analogs,
      v,
      PipelineInfo(data.sources_count, IntOr(out.final.processed.iterations_used, 1), out.attempts, out.model,
        IntOr(v.checks_performed, 8)),
      false,
      timestamp)
  }

  /** A truthy text that is not Russian: one the post-processing sends to the translator. */
  predicate Untranslated(o: Option<string>) {
    o.Some? && o.value != "" && !IsRussian(o.value)
  }

  /** `if (field && !isRussian(field)) field = await translateToRussian(field)` */
  function TranslateText(o: Option<string>, hasKey: bool, backend: Backend): (r: Option<string>)
    ensures !Untranslated(o) ==> r == o
    ensures Untranslated(o) ==> r == Some(TranslateToRussian(o.value, hasKey, backend))
    ensures r.Some? <==> o.Some?
  {
    if Untranslated(o) then Some(TranslateToRussian(o.value, hasKey, backend)) else o
  }

  /** The three descriptive texts of one analog; nothing else of it changes. */
  function TranslateAnalog(a: Analog, hasKey: bool, backend: Backend): (r: Analog)
    ensures r.grade == a.grade && r.standard == a.standard && r.composition == a.composition
    ensures r.mechanical == a.mechanical && r.carbon_equivalent == a.carbon_equivalent
    ensures r.steel_class == TranslateText(a.steel_class, hasKey, backend)
    ensures r.weldability == TranslateText(a.weldability, hasKey, backend)
    ensures r.popularity == TranslateText(a.popularity, hasKey, backend)
  {
    a.(steel_class := TranslateText(a.steel_class, hasKey, backend),
       weldability := TranslateText(a.weldability, hasKey, backend),
       popularity := TranslateText(a.popularity, hasKey, backend))
  }

  /** The analogs after the `for (const country of [...])` loop has visited `countries`. */
  function TranslateCountries(analogs: Analogs, countries: seq<string>, hasKey: bool, backend: Backend): (r: Analogs)
    ensures |r| == |analogs|
    ensures forall k :: 0 <= k < |r| ==> r[k].country == analogs[k].country
    ensures forall c :: c !in countries ==> Find(r, c) == Find(analogs, c)
    decreases |countries|
  {
    if countries == [] then analogs
    else
      var prev := TranslateCountries(analogs, countries[..|countries| - 1], hasKey, backend);
      var c := countries[|countries| - 1];
      match Find(prev, c)
      case None => prev
      case Some(a) => Put(prev, c, TranslateAnalog(a, hasKey, backend))
  }

  /** The validation with its three message lists translated element-wise. */
  function TranslatedValidation(v: Validation, hasKey: bool, backend: Backend): (r: Validation)
    ensures r.passed == v.passed && r.overall_score == v.overall_score && r.criteria == v.criteria
    ensures r.errors == TranslateAll(v.errors, hasKey, backend)
    ensures r.warnings == TranslateAll(v.warnings, hasKey, backend)
    ensures r.recommendations == TranslateAll(v.recommendations, hasKey, backend)
  {
    v.(errors := TranslateAll(v.errors, hasKey, backend),
       warnings := TranslateAll(v.warnings, hasKey, backend),
       recommendations := TranslateAll(v.recommendations, hasKey, backend))
  }

  /** The result after stage 4. */
  function Translated(f: FinalResult, hasKey: bool, backend: Backend): FinalResult {
    f.(validation := TranslatedValidation(f.validation, hasKey, backend),
       analogs := TranslateCountries(f.analogs, COUNTRIES, hasKey, backend))
  }

  /** `translateValidation` on the final validation. */
  method TranslateValidationRecord(v: Validation, hasKey: bool, backend: Backend) returns (r: Validation)
    ensures r == TranslatedValidation(v, hasKey, backend)
  {
    var texts := ValidationTexts(Some(v.errors), Some(v.warnings), Some(v.recommendations), v);
    var translated := TranslateValidation(Some(texts), hasKey, backend);
    r := v.(errors := translated.value.errors.value,
            warnings := translated.value.warnings.value,
            recommendations := translated.value.recommendations.value);
  }

  /** Visiting one more country translates its analog, when present, in place. */
  lemma {:induction false} TranslateCountriesSnoc(analogs: Analogs, countries: seq<string>, c: string, hasKey: bool, backend: Backend)
    ensures var prev := TranslateCountries(analogs, countries, hasKey, backend);
      TranslateCountries(analogs, countries + [c], hasKey, backend)
        == if Find(prev, c).Some? then Put(prev, c, TranslateAnalog(Find(prev, c).value, hasKey, backend)) else prev
  {
    assert (countries + [c])[..|countries|] == countries;
  }

  /** Visiting one more country, read at one key: only that country's analog changes. */
  lemma {:induction false} TranslateCountriesStep(analogs: Analogs, countries: seq<string>, c: string, hasKey: bool, backend: Backend, d: string)
    ensures var prev := TranslateCountries(analogs, countries, hasKey, backend);
      Find(TranslateCountries(analogs, countries + [c], hasKey, backend), d)
        == if d == c && Find(prev, c).Some? then Some(TranslateAnalog(Find(prev, c).value, hasKey, backend)) else Find(prev, d)
  {
    TranslateCountriesSnoc(analogs, countries, c, hasKey, backend);
  }

  /** The three `if` statements of the loop body, on one analog. */
  method TranslateAnalogTexts(a: Analog, hasKey: bool, backend: Backend) returns (b: Analog)
    ensures b == TranslateAnalog(a, hasKey, backend)
  {
    b := a;
    if Untranslated(b.steel_class) {
      b := b.(steel_class := Some(TranslateToRussian(b.steel_class.value, hasKey, backend)));
    }
    if Untranslated(b.weldability) {
      b := b.(weldability := Some(TranslateToRussian(b.weldability.value, hasKey, backend)));
    }
    if Untranslated(b.popularity) {
      b := b.(popularity := Some(TranslateToRussian(b.popularity.value, hasKey, backend)));
    }
  }

  /** The loop over the three countries, translating each present analog's texts in place. */
  method TranslateAnalogs(analogs: Analogs, hasKey: bool, backend: Backend) returns (r: Analogs)
    ensures r == TranslateCountries(analogs, COUNTRIES, hasKey, backend)
  {
    r := analogs;
    for i := 0 to |COUNTRIES|
      invariant r == TranslateCountries(analogs, COUNTRIES[..i], hasKey, backend)
    {
      TranslateCountriesSnoc(analogs, COUNTRIES[..i], COUNTRIES[i], hasKey, backend);
      assert COUNTRIES[..i + 1] == COUNTRIES[..i] + [COUNTRIES[i]];
      var country := COUNTRIES[i];
      var found := Find(r, country);
      if found.Some? {
        var analog := TranslateAnalogTexts(found.value, hasKey, backend);
        r := Put(r, country, analog);
      }
    }
    assert COUNTRIES[..|COUNTRIES|] == COUNTRIES;
  }

  /** Stage 4 on a final result. */
  method TranslateResult(f: FinalResult, hasKey: bool, backend: Backend) returns (r: FinalResult)
    ensures r == Translated(f, hasKey, backend)
  {
    var validation := TranslateValidationRecord(f.validation, hasKey, backend);
    var analogs := TranslateAnalogs(f.analogs, hasKey, backend);
    r := f.(validation := validation, analogs := analogs);
  }

  /** Every text of a list is Russian. */
  predicate AllRussian(texts: seq<string>) {
    forall k :: 0 <= k < |texts| ==> IsRussian(texts[k])
  }

  /** No present analog of the three countries has a text left to translate. */
  predicate AnalogsSettled(analogs: Analogs) {
    forall k :: 0 <= k < |COUNTRIES| ==>
      (Find(analogs, COUNTRIES[k]).Some? ==>
        var a := Find(analogs, COUNTRIES[k]).value;
        !Untranslated(a.steel_class) && !Untranslated(a.weldability) && !Untranslated(a.popularity))
  }

  /** `checkIfNeedsTranslation(data)`: some message or some analog text is not Russian. */
  predicate NeedsTranslation(d: Option<FinalResult>) {
    && d.Some?
    && (|| (exists k :: 0 <= k < |d.value.validation.errors| && !IsRussian(d.value.validation.errors[k]))
        || (exists k :: 0 <= k < |d.value.validation.warnings| && !IsRussian(d.value.validation.warnings[k]))
        || (exists k :: 0 <= k < |d.value.validation.recommendations| && !IsRussian(d.value.validation.recommendations[k]))
        || (exists k :: 0 <= k < |COUNTRIES| && Find(d.value.analogs, COUNTRIES[k]).Some? &&
              (|| Untranslated(Find(d.value.analogs, COUNTRIES[k]).value.steel_class)
               || Untranslated(Find(d.value.analogs, COUNTRIES[k]).value.weldability)
               || Untranslated(Find(d.value.analogs, COUNTRIES[k]).value.popularity))))
  }

  /** `checkTranslationSuccess(data)`: every message and every analog text is Russian. */
  predicate TranslationSuccess(d: Option<FinalResult>) {
    && d.Some?
    && AllRussian(d.value.validation.errors)
    && AllRussian(d.value.validation.warnings)
    && AllRussian(d.value.validation.recommendations)
    && AnalogsSettled(d.value.analogs)
  }

  /** The two checks are complements on a record, and both refuse a missing one. */
  lemma {:induction false} NeedsIffNotSuccess(d: Option<FinalResult>)
    ensures d.Some? ==> (NeedsTranslation(d) <==> !TranslationSuccess(d))
    ensures d.None? ==> !NeedsTranslation(d) && !TranslationSuccess(d)
  {
  }

  /** Putting back the value already found changes nothing. */
  lemma {:induction false} PutFound(analogs: Analogs, country: string)
    requires Find(analogs, country).Some?
    ensures Put(analogs, country, Find(analogs, country).value) == analogs
  {
    if analogs[0].country != country {
      PutFound(analogs[1..], country);
      assert analogs == [analogs[0]] + analogs[1..];
    }
  }

  /** Stage 4 changes no analog's grade, standard, composition or properties, and adds or drops none. */
  lemma {:induction false} TranslateCountriesKeeps(analogs: Analogs, countries: seq<string>, hasKey: bool, backend: Backend, c: string)
    ensures var r := TranslateCountries(analogs, countries, hasKey, backend);
      && (Find(r, c).Some? <==> Find(analogs, c).Some?)
      && (Find(r, c).Some? ==>
          && Find(r, c).value.grade == Find(analogs, c).value.grade
          && Find(r, c).value.standard == Find(analogs, c).value.standard
          && Find(r, c).value.composition == Find(analogs, c).value.composition
          && Find(r, c).value.mechanical == Find(analogs, c).value.mechanical)
    decreases |countries|
  {
    if countries != [] {
      var init, last := countries[..|countries| - 1], countries[|countries| - 1];
      assert countries == init + [last];
      TranslateCountriesKeeps(analogs, init, hasKey, backend, c);
      TranslateCountriesStep(analogs, init, last, hasKey, backend, c);
      var prev := TranslateCountries(analogs, init, hasKey, backend);
      if c == last && Find(prev, c).Some? {
        var a := Find(prev, c).value;
        assert Find(TranslateCountries(analogs, countries, hasKey, backend), c) == Some(TranslateAnalog(a, hasKey, backend));
      } else {
        assert Find(TranslateCountries(analogs, countries, hasKey, backend), c) == Find(prev, c);
      }
    }
  }

  /**
   * Visiting distinct countries translates the analog of each visited one
   * exactly once and leaves every other analog as it was.
   */
  lemma {:induction false} TranslateCountriesFind(analogs: Analogs, countries: seq<string>, hasKey: bool, backend: Backend, c: string)
    requires forall i, j :: 0 <= i < j < |countries| ==> countries[i] != countries[j]
    ensures Find(TranslateCountries(analogs, countries, hasKey, backend), c)
      == if c in countries && Find(analogs, c).Some? then Some(TranslateAnalog(Find(analogs, c).value, hasKey, backend))
         else Find(analogs, c)
    decreases |countries|
  {
    if countries != [] {
      var init := countries[..|countries| - 1];
      var last := countries[|countries| - 1];
      assert countries == init + [last];
      TranslateCountriesFind(analogs, init, hasKey, backend, c);
      TranslateCountriesStep(analogs, init, last, hasKey, backend, c);
      if c == last {
        assert c !in init by {
          forall i | 0 <= i < |init| ensures init[i] != c {
            assert countries[i] != countries[|countries| - 1];
          }
        }
      } else {
        assert c in countries <==> c in init;
      }
    }
  }

  /** A present text is empty or not blank: it is one the translation can turn Russian. */
  predicate Translatable(o: Option<string>) {
    o.None? || o.value == "" || !Text.IsBlank(o.value)
  }

  /** No message of the record is blank, and no analog text is blank without being empty. */
  predicate NoBlankTexts(f: FinalResult) {
    && (forall k :: 0 <= k < |f.validation.errors| ==> !Text.IsBlank(f.validation.errors[k]))
    && (forall k :: 0 <= k < |f.validation.warnings| ==> !Text.IsBlank(f.validation.warnings[k]))
    && (forall k :: 0 <= k < |f.validation.recommendations| ==> !Text.IsBlank(f.validation.recommendations[k]))
    && TranslatableAnalogs(f.analogs)
  }

  /** No analog text of the three countries is blank without being empty. */
  predicate TranslatableAnalogs(analogs: Analogs) {
    forall k :: 0 <= k < |COUNTRIES| ==>
      (Find(analogs, COUNTRIES[k]).Some? ==>
        var a := Find(analogs, COUNTRIES[k]).value;
        Translatable(a.steel_class) && Translatable(a.weldability) && Translatable(a.popularity))
  }

  /** A list without blank messages is all Russian once translated by a Russian-answering endpoint. */
  lemma {:induction false} TranslateAllSettles(texts: seq<string>, backend: Backend)
    requires AnswersInRussian(backend)
    requires forall k :: 0 <= k < |texts| ==> !Text.IsBlank(texts[k])
    ensures AllRussian(TranslateAll(texts, true, backend))
  {
    forall k | 0 <= k < |texts| ensures IsRussian(TranslateAll(texts, true, backend)[k]) {
      TranslateSettles(texts[k], backend);
    }
  }

  /** One analog's three texts are settled once translated by a Russian-answering endpoint. */
  lemma {:induction false} TranslateAnalogSettles(a: Analog, backend: Backend)
    requires AnswersInRussian(backend)
    requires Translatable(a.steel_class) && Translatable(a.weldability) && Translatable(a.popularity)
    ensures var t := TranslateAnalog(a, true, backend);
      !Untranslated(t.steel_class) && !Untranslated(t.weldability) && !Untranslated(t.popularity)
  {
    if Untranslated(a.steel_class) {
      TranslateSettles(a.steel_class.value, backend);
    }
    if Untranslated(a.weldability) {
      TranslateSettles(a.weldability.value, backend);
    }
    if Untranslated(a.popularity) {
      TranslateSettles(a.popularity.value, backend);
    }
  }

  /**
   * With a key and an endpoint that always answers in Russian, stage 4
   * makes a record without blank texts pass the translation check; a blank
   * message is the one thing the translation leaves unsettled.
   */
  lemma {:induction false} TranslationSucceeds(f: FinalResult, backend: Backend)
    requires AnswersInRussian(backend) && NoBlankTexts(f)
    ensures TranslationSuccess(Some(Translated(f, true, backend)))
  {
    TranslateAllSettles(f.validation.errors, backend);
    TranslateAllSettles(f.validation.warnings, backend);
    TranslateAllSettles(f.validation.recommendations, backend);
    CountriesSettle(f.analogs, backend);
  }

  /** Stage 4 leaves no text to translate in the analogs of the three countries. */
  lemma {:induction false} CountriesSettle(analogs: Analogs, backend: Backend)
    requires AnswersInRussian(backend) && TranslatableAnalogs(analogs)
    ensures AnalogsSettled(TranslateCountries(analogs, COUNTRIES, true, backend))
  {
    forall k | 0 <= k < |COUNTRIES|
      ensures var t := TranslateCountries(analogs, COUNTRIES, true, backend);
        Find(t, COUNTRIES[k]).Some? ==>
          var a := Find(t, COUNTRIES[k]).value;
          !Untranslated(a.steel_class) && !Untranslated(a.weldability) && !Untranslated(a.popularity)
    {
      CountrySettles(analogs, backend, COUNTRIES[k]);
    }
  }

  lemma {:induction false} CountriesDistinct()
    ensures forall i, j :: 0 <= i < j < |COUNTRIES| ==> COUNTRIES[i] != COUNTRIES[j]
  {
  }

  /** One country's analog is settled by stage 4. */
  lemma {:induction false} CountrySettles(analogs: Analogs, backend: Backend, c: string)
    requires AnswersInRussian(backend) && c in COUNTRIES
    requires Find(analogs, c).Some? ==>
      var a := Find(analogs, c).value;
      Translatable(a.steel_class) && Translatable(a.weldability) && Translatable(a.popularity)
    ensures var t := TranslateCountries(analogs, COUNTRIES, true, backend);
      Find(t, c).Some? ==>
        var a := Find(t, c).value;
        !Untranslated(a.steel_class) && !Untranslated(a.weldability) && !Untranslated(a.popularity)
  {
    CountriesDistinct();
    TranslateCountriesFind(analogs, COUNTRIES, true, backend, c);
    if Find(analogs, c).Some? {
      TranslateAnalogSettles(Find(analogs, c).value, backend);
    }
  }

  /** A blank message is never settled: `'  '` is given back as it is and is not Russian. */
  lemma {:induction false} BlankMessageNeverSettles(f: FinalResult, hasKey: bool, backend: Backend)
    requires |f.validation.errors| > 0 && Text.IsBlank(f.validation.errors[0])
    ensures !TranslationSuccess(Some(Translated(f, hasKey, backend)))
  {
    var m := f.validation.errors[0];
    assert TranslateAll(f.validation.errors, hasKey, backend)[0] == m;
    assert !IsRussian(m);
  }

  /** An analog with no text left to translate is its own translation. */
  lemma {:induction false} SettledAnalogUnchanged(a: Analog, hasKey: bool, backend: Backend)
    requires !Untranslated(a.steel_class) && !Untranslated(a.weldability) && !Untranslated(a.popularity)
    ensures TranslateAnalog(a, hasKey, backend) == a
  {
  }

  /** A settled record goes through stage 4 unchanged. */
  lemma {:induction false} SettledCountriesUnchanged(analogs: Analogs, n: nat, hasKey: bool, backend: Backend)
    requires n <= |COUNTRIES|
    requires AnalogsSettled(analogs)
    ensures TranslateCountries(analogs, COUNTRIES[..n], hasKey, backend) == analogs
  {
    if n > 0 {
      assert COUNTRIES[..n] == COUNTRIES[..n - 1] + [COUNTRIES[n - 1]];
      SettledCountriesUnchanged(analogs, n - 1, hasKey, backend);
      var c := COUNTRIES[n - 1];
      TranslateCountriesSnoc(analogs, COUNTRIES[..n - 1], c, hasKey, backend);
      if Find(analogs, c).Some? {
        SettledAt(analogs, n - 1, hasKey, backend);
        PutFound(analogs, c);
      }
    }
  }

  /** In a settled record, the analog of each of the three countries is its own translation. */
  lemma {:induction false} SettledAt(analogs: Analogs, k: nat, hasKey: bool, backend: Backend)
    requires k < |COUNTRIES| && AnalogsSettled(analogs)
    requires Find(analogs, COUNTRIES[k]).Some?
    ensures TranslateAnalog(Find(analogs, COUNTRIES[k]).value, hasKey, backend) == Find(analogs, COUNTRIES[k]).value
  {
    SettledAnalogUnchanged(Find(analogs, COUNTRIES[k]).value, hasKey, backend);
  }

  /** A record that already passes the translation check is left as it is by stage 4. */
  lemma {:induction false} TranslationSettled(f: FinalResult, hasKey: bool, backend: Backend)
    requires TranslationSuccess(Some(f))
    ensures Translated(f, hasKey, backend) == f
  {
    TranslateAllRussian(f.validation.errors, hasKey, backend);
    TranslateAllRussian(f.validation.warnings, hasKey, backend);
    TranslateAllRussian(f.validation.recommendations, hasKey, backend);
    SettledCountriesUnchanged(f.analogs, |COUNTRIES|, hasKey, backend);
    assert COUNTRIES[..|COUNTRIES|] == COUNTRIES;
  }

  /** The cache write gate after a fresh run. */
  predicate ShouldCache(cfg: EngineConfig, f: FinalResult) {
    cfg.cache_enabled && f.validation.passed && TranslationSuccess(Some(f))
  }

  /** What a cache hit returns: the entry, translated when it needs it, marked as cached. */
  function HitResult(entry: FinalResult, hasKey: bool, backend: Backend): (r: FinalResult)
    ensures r.cached
    ensures !NeedsTranslation(Some(entry)) ==> r == entry.(cached := true)
  {
    if NeedsTranslation(Some(entry)) then Translated(entry, hasKey, backend).(cached := true)
    else entry.(cached := true)
  }

  /** A cache hit is written back only when it needed a translation and the translation succeeded. */
  predicate RewriteHit(entry: FinalResult, hasKey: bool, backend: Backend) {
    NeedsTranslation(Some(entry)) && TranslationSuccess(Some(Translated(entry, hasKey, backend)))
  }

  /**
   * The summary log line reads `processedData.analogs.USA.grade` and the
   * same for Russia and China: a best attempt lacking one of the three
   * throws there.
   */
  predicate HasAllCountries(analogs: Analogs) {
    forall k :: 0 <= k < |COUNTRIES| ==> Find(analogs, COUNTRIES[k]).Some?
  }

  /** A record the fresh run caches is served as it is by a later hit, and never rewritten. */
  lemma {:induction false} CachedRecordStable(cfg: EngineConfig, f: FinalResult, hasKey: bool, backend: Backend)
    requires ShouldCache(cfg, f)
    ensures HitResult(f, hasKey, backend) == f.(cached := true)
    ensures !RewriteHit(f, hasKey, backend)
  {
    NeedsIffNotSuccess(Some(f));
  }

  /** The fresh run: stage 1, the escalation, the final record and stage 4. */
  function FreshRun(st: Stages, grade: string, cfg: EngineConfig, hasKey: bool, backend: Backend, now: string): (r: Result<FinalResult, string>)
    ensures st.search(grade).Failure? ==> r == Failure(st.search(grade).error)
    ensures r.Success? ==>
      var out := Escalation(st, grade, cfg, st.search(grade).value);
      && st.search(grade).Success? && out.Success?
      && HasAllCountries(out.value.final.processed.analogs)
      && (r.value.status == "success" <==> out.value.final.validated.validation.passed)
      && r.value.validation.passed == out.value.final.validated.validation.passed
      && r.value.pipeline.stage2_attempts == out.value.attempts
      && !r.value.cached
  {
    match st.search(grade)
    case Failure(e) => Failure(e)
    case Success(data) =>
      match Escalation(st, grade, cfg, data)
      case Failure(e) => Failure(e)
      case Success(out) =>
        if !HasAllCountries(out.final.processed.analogs) then Failure(MISSING_ANALOG)
        else Success(Translated(Finalize(grade, data, out, now), hasKey, backend))
  }

  /**
   * `findSteelAnalogs(steelGrade, config)`: a cache hit runs no stage; a
   * fresh run is cached only when caching is on, the validation passed and
   * every text is Russian.
   */
  method FindSteelAnalogs(st: Stages, grade: string, cfg: EngineConfig, hasKey: bool, backend: Backend,
                          cache: CacheStore<FinalResult>, now: string) returns (r: Result<FinalResult, string>)
    modifies cache
    ensures cfg.cache_enabled && old(cache.Get(grade)).Some? ==>
      var entry := old(cache.Get(grade)).value.data;
      && r == Success(HitResult(entry, hasKey, backend))
      && (RewriteHit(entry, hasKey, backend) ==>
            cache.file == Some(old(cache.Load())[Normalize(grade) := Cached(Translated(entry, hasKey, backend), now)]))
      && (!RewriteHit(entry, hasKey, backend) ==> cache.file == old(cache.file))
    ensures !(cfg.cache_enabled && old(cache.Get(grade)).Some?) ==>
      && r == FreshRun(st, grade, cfg, hasKey, backend, now)
      && (r.Success? && ShouldCache(cfg, r.value) ==>
            cache.file == Some(old(cache.Load())[Normalize(grade) := Cached(r.value, now)]))
      && (r.Failure? || !ShouldCache(cfg, r.value) ==> cache.file == old(cache.file))
  {
    if cfg.cache_enabled {
      var hit := cache.Get(grade);
      if hit.Some? {
        var entry := hit.value.data;
        if NeedsTranslation(Some(entry)) {
          entry := TranslateResult(entry, hasKey, backend);
          if TranslationSuccess(Some(entry)) {
            cache.Save(grade, entry, now);
          }
        }
        return Success(entry.(cached := true));
      }
    }
    var searched := st.search(grade);
    if searched.Failure? {
      return Failure(searched.error);
    }
    var data := searched.value;
    var escalated := Escalate(st, grade, cfg, data);
    if escalated.Failure? {
      return Failure(escalated.error);
    }
    if !HasAllCountries(escalated.value.final.processed.analogs) {
      return Failure(MISSING_ANALOG);
    }
    var final := Finalize(grade, data, escalated.value, now);
    final := TranslateResult(final, hasKey, backend);
    if cfg.cache_enabled && final.validation.passed {
      if TranslationSuccess(Some(final)) {
        cache.Save(grade, final, now);
      }
    }
    r := Success(final);
  }
}
