/**
 * The standards equivalence controller: a cache lookup, then up to three
 * tiers (the chat model, the reasoner, the fallback model) each followed by
 * validation, where a later tier runs only when the previous one scored
 * below the threshold and simply replaces its result; then a minimum-score
 * check, the final record and the cache write.
 *
 * The standards configuration and the cached entry for the code are inputs,
 * and the record handed to the standards store is an output.
 */
module StandardsEngine {
  import opened Wrappers
  import opened Translator

  const MAX_ATTEMPTS: nat := 3

  const CHAT_MODEL := "deepseek-chat"
  const REASONER_MODEL := "deepseek-reasoner"
  const FALLBACK_MODEL := "gpt-4o-mini"

  datatype ValidationSettings = ValidationSettings(
    escalation_threshold: Option<real>,
    min_overall_score: Option<real>,
    strictness: Option<string>)

  datatype CacheSettings = CacheSettings(enabled: bool, cache_after_validation_only: bool)

  /** The standards configuration; a `None` section is one the object lacks. */
  datatype StandardsConfig = StandardsConfig(
    version: Option<string>,
    cache_settings: Option<CacheSettings>,
    validation_settings: Option<ValidationSettings>)

  /** `config.validation_settings?.escalation_threshold || 70` */
  function Threshold(vs: Option<ValidationSettings>): (t: real)
    ensures vs.Some? && vs.value.escalation_threshold.Some? && vs.value.escalation_threshold.value != 0.0 ==>
      t == vs.value.escalation_threshold.value
    ensures vs.None? || vs.value.escalation_threshold.None? || vs.value.escalation_threshold.value == 0.0 ==> t == 70.0
  {
    if vs.Some? && vs.value.escalation_threshold.Some? && vs.value.escalation_threshold.value != 0.0
    then vs.value.escalation_threshold.value
    else 70.0
  }

  /** What the validator returns: its score and the rest of its record. */
  datatype StandardsValidation = StandardsValidation(overall_score: real, details: Json)

  datatype SearchData = SearchData(sources_count: int)

  /** One tier's stage-2 output and its validation. */
  datatype Tier = Tier(equivalents: Json, validation: StandardsValidation)

  /** The stages: `process` takes the model to use, `fallback` is the other backend. */
  datatype Stages = Stages(
    search: (string, Option<string>) -> Result<SearchData, string>,
    process: (string, string, Option<string>, SearchData) -> Result<Json, string>,
    fallback: (string, Option<string>, SearchData) -> Result<Json, string>,
    validate: (string, Json) -> Result<StandardsValidation, string>)

  /** The model tier `n` runs. */
  function ModelOf(n: nat): (m: string)
    requires 1 <= n <= MAX_ATTEMPTS
    ensures n == 1 ==> m == CHAT_MODEL
    ensures n == 2 ==> m == REASONER_MODEL
    ensures n == 3 ==> m == FALLBACK_MODEL
  {
    if n == 1 then CHAT_MODEL else if n == 2 then REASONER_MODEL else FALLBACK_MODEL
  }

  /** Tier `n`: its stage 2, then validation; a failure of either propagates. */
  function RunTier(st: Stages, code: string, kind: Option<string>, data: SearchData, n: nat): (r: Result<Tier, string>)
    requires 1 <= n <= MAX_ATTEMPTS
    ensures var processed := if n == MAX_ATTEMPTS then st.fallback(code, kind, data) else st.process(ModelOf(n), code, kind, data);
      && (processed.Failure? ==> r == Failure(processed.error))
      && (r.Success? ==> processed == Success(r.value.equivalents) && st.validate(code, r.value.equivalents) == Success(r.value.validation))
      && (processed.Success? && st.validate(code, processed.value).Failure? ==> r == Failure(st.validate(code, processed.value).error))
  {
    var processed := if n == MAX_ATTEMPTS then st.fallback(code, kind, data) else st.process(ModelOf(n), code, kind, data);
    match processed
    case Failure(e) => Failure(e)
    case Success(eq) =>
      match st.validate(code, eq)
      case Failure(e) => Failure(e)
      case Success(v) => Success(Tier(eq, v))
  }

  /** The last tier run and how many ran. */
  datatype Escalated = Escalated(last: Tier, attempts: nat)

  /** The tiers from `n` on: the next one runs only while the score stays below the threshold. */
  function EscalateFrom(st: Stages, code: string, kind: Option<string>, data: SearchData, threshold: real, n: nat): (r: Result<Escalated, string>)
    requires 1 <= n <= MAX_ATTEMPTS
    ensures RunTier(st, code, kind, data, n).Failure? ==> r == Failure(RunTier(st, code, kind, data, n).error)
    ensures r.Success? ==> n <= r.value.attempts <= MAX_ATTEMPTS && RunTier(st, code, kind, data, r.value.attempts) == Success(r.value.last)
    decreases MAX_ATTEMPTS - n
  {
    match RunTier(st, code, kind, data, n)
    case Failure(e) => Failure(e)
    case Success(t) =>
      if t.validation.overall_score < threshold && n < MAX_ATTEMPTS then EscalateFrom(st, code, kind, data, threshold, n + 1)
      else Success(Escalated(t, n))
  }

  /**
   * The last tier wins: the returned tier is the one run last; every earlier
   * tier completed below the threshold; and it stopped early only on a
   * score that reached the threshold.
   */
  lemma {:induction false} EscalationLastWins(st: Stages, code: string, kind: Option<string>, data: SearchData, threshold: real, n: nat)
    requires 1 <= n <= MAX_ATTEMPTS
    requires EscalateFrom(st, code, kind, data, threshold, n).Success?
    ensures var e := EscalateFrom(st, code, kind, data, threshold, n).value;
      && n <= e.attempts <= MAX_ATTEMPTS
      && RunTier(st, code, kind, data, e.attempts) == Success(e.last)
      && (e.attempts < MAX_ATTEMPTS ==> e.last.validation.overall_score >= threshold)
      && (forall k :: n <= k < e.attempts ==>
            RunTier(st, code, kind, data, k).Success? && RunTier(st, code, kind, data, k).value.validation.overall_score < threshold)
    decreases MAX_ATTEMPTS - n
  {
    var t := RunTier(st, code, kind, data, n).value;
    if t.validation.overall_score < threshold && n < MAX_ATTEMPTS {
      EscalationLastWins(st, code, kind, data, threshold, n + 1);
    }
  }

  /**
   * A later tier replaces the earlier ones whatever it scores: after two
   * tiers below the threshold, the third tier's record is returned even when
   * it scores lower than both.
   */
  lemma {:induction false} NoBestTracking(st: Stages, code: string, kind: Option<string>, data: SearchData, threshold: real)
    requires RunTier(st, code, kind, data, 1).Success?
    requires RunTier(st, code, kind, data, 1).value.validation.overall_score < threshold
    requires RunTier(st, code, kind, data, 2).Success?
    requires RunTier(st, code, kind, data, 2).value.validation.overall_score < threshold
    requires RunTier(st, code, kind, data, 3).Success?
    ensures EscalateFrom(st, code, kind, data, threshold, 1) == Success(Escalated(RunTier(st, code, kind, data, 3).value, 3))
  {
    assert EscalateFrom(st, code, kind, data, threshold, 3) == Success(Escalated(RunTier(st, code, kind, data, 3).value, 3));
  }

  datatype ProcessingInfo = ProcessingInfo(
    attempts: nat,
    model_used: string,
    final_score: real,
    escalation_triggered: bool)

  datatype ConfigUsed = ConfigUsed(version: Option<string>, strictness: Option<string>, min_score: Option<real>)

  /**
   * The record `findEquivalents` returns. `cached_at` and `config_version`
   * are present only on a record read back from the store.
   */
  datatype StandardsResult = StandardsResult(
    input_standard: string,
    standard_type: string,
    equivalents: Json,
    compatibility_assessment: Json,
    validation: StandardsValidation,
    sources_count: int,
    processing_info: ProcessingInfo,
    cached: bool,
    config_used: ConfigUsed,
    cached_at: Option<string>,
    config_version: Option<string>)

  /** `obj.key` on a JSON value that is not `null`: the field's value, or `None` for `undefined`. */
  function Member(j: Json, key: string): (r: Option<Json>)
    ensures r.Some? ==> j.JObj? && Field(key, r.value) in j.fields
    ensures j.JObj? && (exists k :: 0 <= k < |j.fields| && j.fields[k].key == key) ==> r.Some?
  {
    if j.JObj? then FieldValue(j.fields, key) else None
  }

  function FieldValue(fields: seq<Field>, key: string): (r: Option<Json>)
    ensures r.Some? ==> Field(key, r.value) in fields
    ensures (exists k :: 0 <= k < |fields| && fields[k].key == key) ==> r.Some?
  {
    if fields == [] then None
    else if fields[0].key == key then Some(fields[0].value)
    else FieldValue(fields[1..], key)
  }

  /** `a || b` where `a` may be `undefined`. */
  function OrElse(a: Option<Json>, b: Json): (r: Json)
    ensures a.Some? && !Falsy(a.value) ==> r == a.value
    ensures a.None? || Falsy(a.value) ==> r == b
  {
    if a.Some? && !Falsy(a.value) then a.value else b
  }

  /**
   * The tail of the pipeline after the tiers: the minimum-score check, then
   * the final record. A missing `validation_settings` or a `null` stage-2
   * result throws on the property access.
   */
  function Finish(code: string, kind: Option<string>, cfg: StandardsConfig, data: SearchData, e: Escalated): (r: Result<StandardsResult, string>)
    requires 1 <= e.attempts <= MAX_ATTEMPTS
    ensures r.Success? <==>
      && cfg.validation_settings.Some?
      && (cfg.validation_settings.value.min_overall_score.None? ||
          e.last.validation.overall_score >= cfg.validation_settings.value.min_overall_score.value)
      && e.last.equivalents != JNull
    ensures r.Success? ==> cfg.validation_settings.Some?
    ensures r.Success? && cfg.validation_settings.value.min_overall_score.Some? ==>
      e.last.validation.overall_score >= cfg.validation_settings.value.min_overall_score.value
    ensures r.Success? ==>
      && r.value.validation == e.last.validation
      && r.value.processing_info.final_score == r.value.validation.overall_score
      && r.value.processing_info.attempts == e.attempts
      && r.value.processing_info.model_used == ModelOf(e.attempts)
      && (r.value.processing_info.escalation_triggered <==> e.attempts > 1)
      && !r.value.cached
      && r.value.cached_at.None?
    ensures r.Success? ==>
      && r.value.input_standard == code
      && r.value.standard_type == (if kind.Some? && kind.value != "" then kind.value else "general")
      && r.value.equivalents == OrElse(Member(e.last.equivalents, "equivalents"), e.last.equivalents)
      && r.value.compatibility_assessment == OrElse(Member(e.last.equivalents, "compatibility_assessment"), JObj([]))
      && r.value.sources_count == data.sources_count
      && r.value.config_used == ConfigUsed(cfg.version, cfg.validation_settings.value.strictness,
                                           cfg.validation_settings.value.min_overall_score)
      && r.value.config_version.None?
  {
    match cfg.validation_settings
    case None => Failure("cannot read min_overall_score of undefined")
    case Some(vs) =>
      var finalScore := e.last.validation.overall_score;
      if vs.min_overall_score.Some? && finalScore < vs.min_overall_score.value then Failure("validation failed: score below the minimum")
      else if e.last.equivalents == JNull then Failure("cannot read equivalents of null")
      else
        var eq := e.last.equivalents;
        Success(StandardsResult(
          code,
          if kind.Some? && kind.value != "" then kind.value else "general",
          OrElse(Member(eq, "equivalents"), eq),
          OrElse(Member(eq, "compatibility_assessment"), JObj([])),
          e.last.validation,
          data.sources_count,
          ProcessingInfo(e.attempts, ModelOf(e.attempts), finalScore, e.attempts > 1),
          false,
          ConfigUsed(cfg.version, vs.strictness, vs.min_overall_score),
          None,
          None))
  }

  /** `cacheResults(code, result, config)`: the record with `cached_at` and `config_version` added. */
  function CacheRecord(result: StandardsResult, cfg: StandardsConfig, now: string): (r: StandardsResult)
    ensures r.cached_at == Some(now) && r.config_version == cfg.version
    ensures r.(cached_at := result.cached_at, config_version := result.config_version) == result
  {
    result.(cached_at := Some(now), config_version := cfg.version)
  }

  /** Whether a fresh result is handed to the store. */
  predicate CacheWrites(cs: CacheSettings) {
    cs.enabled && cs.cache_after_validation_only
  }

  /** A run without a cache hit: stage 1, the tiers and the tail. */
  function FreshRun(st: Stages, code: string, kind: Option<string>, cfg: StandardsConfig): (r: Result<StandardsResult, string>)
    ensures st.search(code, kind).Failure? ==> r == Failure(st.search(code, kind).error)
    ensures r.Success? ==>
      var e := EscalateFrom(st, code, kind, st.search(code, kind).value, Threshold(cfg.validation_settings), 1);
      && st.search(code, kind).Success? && e.Success?
      && r.value.validation == e.value.last.validation
      && r.value.processing_info.attempts == e.value.attempts
      && r.value.sources_count == st.search(code, kind).value.sources_count
      && !r.value.cached
  {
    match st.search(code, kind)
    case Failure(e) => Failure(e)
    case Success(data) =>
      match EscalateFrom(st, code, kind, data, Threshold(cfg.validation_settings), 1)
      case Failure(e) => Failure(e)
      case Success(esc) =>
        EscalationLastWins(st, code, kind, data, Threshold(cfg.validation_settings), 1);
        Finish(code, kind, cfg, data, esc)
  }

  /**
   * `findEquivalents(standardCode, standardType)`, given the configuration
   * (`None` when there is none), the store's entry for the code, and the
   * stages. Returns the result and the record handed to the store, if any.
   */
  method FindEquivalents(st: Stages, code: string, kind: Option<string>, config: Option<StandardsConfig>,
                         stored: Option<StandardsResult>, now: string)
    returns (r: Result<StandardsResult, string>, written: Option<StandardsResult>)
    ensures config.None? || config.value.cache_settings.None? ==> r.Failure? && written.None?
    ensures config.Some? && config.value.cache_settings.Some? && config.value.cache_settings.value.enabled && stored.Some? ==>
      r == Success(stored.value.(cached := true)) && written.None?
    ensures config.Some? && config.value.cache_settings.Some? && !(config.value.cache_settings.value.enabled && stored.Some?) ==>
      && r == FreshRun(st, code, kind, config.value)
      && written == (if r.Success? && CacheWrites(config.value.cache_settings.value) then Some(CacheRecord(r.value, config.value, now)) else None)
  {
    written := None;
    if config.None? {
      return Failure("standards configuration not found"), None;
    }
    var cfg := config.value;
    if cfg.cache_settings.None? {
      return Failure("cannot read enabled of undefined"), None;
    }
    if cfg.cache_settings.value.enabled && stored.Some? {
      return Success(stored.value.(cached := true)), None;
    }
    var searched := st.search(code, kind);
    if searched.Failure? {
      return Failure(searched.error), None;
    }
    var data := searched.value;
    var threshold := Threshold(cfg.validation_settings);
    ghost var spec := EscalateFrom(st, code, kind, data, threshold, 1);
    var attempt := 1;
    var modelUsed := CHAT_MODEL;
    var equivalents := st.process(modelUsed, code, kind, data);
    if equivalents.Failure? {
      return Failure(equivalents.error), None;
    }
    var validation := st.validate(code, equivalents.value);
    if validation.Failure? {
      return Failure(validation.error), None;
    }
    if validation.value.overall_score < threshold && attempt < MAX_ATTEMPTS {
      attempt := 2;
      modelUsed := REASONER_MODEL;
      equivalents := st.process(modelUsed, code, kind, data);
      if equivalents.Failure? {
        return Failure(equivalents.error), None;
      }
      validation := st.validate(code, equivalents.value);
      if validation.Failure? {
        return Failure(validation.error), None;
      }
      if validation.value.overall_score < threshold && attempt < MAX_ATTEMPTS {
        attempt := 3;
        modelUsed := FALLBACK_MODEL;
        equivalents := st.fallback(code, kind, data);
        if equivalents.Failure? {
          return Failure(equivalents.error), None;
        }
        validation := st.validate(code, equivalents.value);
        if validation.Failure? {
          return Failure(validation.error), None;
        }
      }
    }
    assert spec == Success(Escalated(Tier(equivalents.value, validation.value), attempt));
    assert modelUsed == ModelOf(attempt);
    r := Finish(code, kind, cfg, data, Escalated(Tier(equivalents.value, validation.value), attempt));
    if r.Success? && cfg.cache_settings.value.enabled && cfg.cache_settings.value.cache_after_validation_only {
      written := Some(CacheRecord(r.value, cfg, now));
    }
  }

  /** A returned fresh result never scores below the configured minimum, and it reports its own tier. */
  lemma {:induction false} FreshRunMeetsMinimum(st: Stages, code: string, kind: Option<string>, cfg: StandardsConfig)
    requires FreshRun(st, code, kind, cfg).Success?
    ensures var res := FreshRun(st, code, kind, cfg).value;
      && (cfg.validation_settings.value.min_overall_score.Some? ==>
            res.processing_info.final_score >= cfg.validation_settings.value.min_overall_score.value)
      && 1 <= res.processing_info.attempts <= MAX_ATTEMPTS
      && (res.processing_info.escalation_triggered <==> res.processing_info.attempts > 1)
      && (res.processing_info.attempts < MAX_ATTEMPTS ==> res.processing_info.final_score >= Threshold(cfg.validation_settings))
  {
    var data := st.search(code, kind).value;
    EscalationLastWins(st, code, kind, data, Threshold(cfg.validation_settings), 1);
  }

  /** A record read back after a write is the fresh result, marked cached and stamped. */
  lemma {:induction false} CachedRoundTrip(result: StandardsResult, cfg: StandardsConfig, now: string)
    ensures CacheRecord(result, cfg, now).(cached := true).(cached := false, cached_at := result.cached_at, config_version := result.config_version)
      == result.(cached := false)
  {
  }

  /** The names `server/config.js` exports. */
  const CONFIG_EXPORTS: set<string> := {"getConfig", "updateConfig"}

  /** The names `server/cacheManager.js` exports. */
  const CACHE_EXPORTS: set<string> := {"get", "save", "clear"}

  /** `module.name(...)`: a name the module does not export is `undefined`, and calling it throws. */
  function CallExport(exports: set<string>, name: string): (r: Result<(), string>)
    ensures r.Success? <==> name in exports
    ensures r.Failure? ==> r.error == name + " is not a function"
  {
    if name in exports then Success(()) else Failure(name + " is not a function")
  }

  /**
   * `findEquivalents` as written, given the names the configuration module
   * and the store export: it calls `getStandardsConfig`, then (with caching
   * on) `getStandards`, and, after a fresh run that is to be cached,
   * `saveStandards`; calling a name the module does not export throws.
   */
  function FindEquivalentsAsWritten(configExports: set<string>, cacheExports: set<string>,
                                    st: Stages, code: string, kind: Option<string>, config: Option<StandardsConfig>,
                                    stored: Option<StandardsResult>): (r: Result<StandardsResult, string>)
    ensures "getStandardsConfig" !in configExports ==> r == Failure("getStandardsConfig is not a function")
    ensures r.Success? ==> "getStandardsConfig" in configExports && config.Some? && config.value.cache_settings.Some?
    ensures r.Success? && config.value.cache_settings.value.enabled ==> "getStandards" in cacheExports
    ensures "getStandardsConfig" in configExports && "getStandards" in cacheExports && "saveStandards" in cacheExports
            && config.Some? && config.value.cache_settings.Some? ==>
      r == if config.value.cache_settings.value.enabled && stored.Some? then Success(stored.value.(cached := true))
           else FreshRun(st, code, kind, config.value)
  {
    assert "getStandardsConfig" + " is not a function" == "getStandardsConfig is not a function";
    match CallExport(configExports, "getStandardsConfig")
    case Failure(e) => Failure(e)
    case Success(_) =>
      if config.None? then Failure("standards configuration not found")
      else if config.value.cache_settings.None? then Failure("cannot read enabled of undefined")
      else
        var cs := config.value.cache_settings.value;
        if cs.enabled && CallExport(cacheExports, "getStandards").Failure? then Failure("getStandards is not a function")
        else if cs.enabled && stored.Some? then Success(stored.value.(cached := true))
        else
          match FreshRun(st, code, kind, config.value)
          case Failure(e) => Failure(e)
          case Success(res) =>
            if CacheWrites(cs) && CallExport(cacheExports, "saveStandards").Failure? then Failure("saveStandards is not a function")
            else Success(res)
  }

  /** With the names the two modules do export, every call of the entry point throws at its first line. */
  lemma {:induction false} StandardsEntryPointThrowsAsWritten(st: Stages, code: string, kind: Option<string>,
                                                              config: Option<StandardsConfig>, stored: Option<StandardsResult>)
    ensures FindEquivalentsAsWritten(CONFIG_EXPORTS, CACHE_EXPORTS, st, code, kind, config, stored)
      == Failure("getStandardsConfig is not a function")
  {
    assert "getStandardsConfig" !in CONFIG_EXPORTS;
  }
}
