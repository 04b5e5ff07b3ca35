/**
 * The persisted settings: a JSON object read over the defaults, so that
 * stored values win and every default key is present. The file behind it is
 * a field: `None` stands for a store that is missing or does not parse.
 */
module Config {
  import opened Wrappers
  import opened Translator

  type Settings = map<string, Json>

  const DEFAULT_CONFIG: Settings := map[
    "cache_enabled" := JBool(true),
    "validation_strictness" := JStr("medium"),
    "max_iterations" := JNum(3.0),
    "tavily_max_results" := JNum(5.0),
    "deepseek_temperature" := JNum(0.7),
    "openai_temperature" := JNum(0.3),
    "openai_model" := JStr("gpt-4o-mini")]

  /** `{ ...base, ...over }`: every key of both, the value of `over` winning. */
  function Merge(base: Settings, over: Settings): (r: Settings)
    ensures r.Keys == base.Keys + over.Keys
    ensures forall k :: k in over ==> r[k] == over[k]
    ensures forall k :: k in base && k !in over ==> r[k] == base[k]
  {
    base + over
  }

  /** Merging the same overlay twice is merging it once. */
  lemma {:induction false} MergeIdempotent(base: Settings, over: Settings)
    ensures Merge(Merge(base, over), over) == Merge(base, over)
  {
  }

  /** Reading defaults over settings that already carry them changes nothing. */
  lemma {:induction false} MergeAbsorbsBase(base: Settings, over: Settings)
    ensures Merge(base, Merge(base, over)) == Merge(base, over)
  {
  }

  /** Defaults read under settings that already name every default key change nothing. */
  lemma {:induction false} MergeCovered(base: Settings, over: Settings)
    requires base.Keys <= over.Keys
    ensures Merge(base, over) == over
  {
    assert Merge(base, over).Keys == over.Keys;
  }

  class ConfigStore {
    /** The persisted settings; `None` when missing or unreadable. */
    var file: Option<Settings>

    constructor(persisted: Option<Settings>)
      ensures file == persisted
    {
      file := persisted;
    }

    /** What `loadConfig()` returns for the current store. */
    function Current(): (r: Settings)
      reads this
      ensures DEFAULT_CONFIG.Keys <= r.Keys
      ensures file.None? ==> r == DEFAULT_CONFIG
      ensures file.Some? ==> forall k :: k in file.value ==> k in r && r[k] == file.value[k]
      ensures r.Keys == DEFAULT_CONFIG.Keys + (if file.Some? then file.value.Keys else {})
      ensures forall k :: k in DEFAULT_CONFIG && (file.None? || k !in file.value) ==> r[k] == DEFAULT_CONFIG[k]
    {
      if file.Some? then Merge(DEFAULT_CONFIG, file.value) else DEFAULT_CONFIG
    }

    /**
     * `loadConfig()` (and `getConfig()`): the stored values over the
     * defaults; a missing or unreadable store gives the defaults, which are
     * then written.
     */
    method LoadConfig() returns (r: Settings)
      modifies this
      ensures r == old(Current())
      ensures old(file).None? ==> file == Some(DEFAULT_CONFIG)
      ensures old(file).Some? ==> file == old(file)
      ensures Current() == r
    {
      if file.Some? {
        return Merge(DEFAULT_CONFIG, file.value);
      }
      file := Some(DEFAULT_CONFIG);
      r := DEFAULT_CONFIG;
    }

    /**
     * `updateConfig(updates)`: the current settings with the updates over
     * them, written back and returned; keys the updates do not name keep
     * their values.
     */
    method UpdateConfig(updates: Settings) returns (r: Settings)
      modifies this
      ensures r == Merge(old(Current()), updates)
      ensures file == Some(r)
      ensures Current() == r
      ensures forall k :: k in old(Current()) && k !in updates ==> r[k] == old(Current())[k]
    {
      var current := LoadConfig();
      r := Merge(current, updates);
      file := Some(r);
      MergeCovered(DEFAULT_CONFIG, r);
    }
  }

  /** Applying the same update twice leaves the settings as applying it once. */
  lemma {:induction false} UpdateTwice(stored: Option<Settings>, updates: Settings)
    ensures var once := Merge(if stored.Some? then Merge(DEFAULT_CONFIG, stored.value) else DEFAULT_CONFIG, updates);
      Merge(Merge(DEFAULT_CONFIG, once), updates) == once
  {
  }
}
