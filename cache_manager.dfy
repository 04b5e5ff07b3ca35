/**
 * The result cache: one JSON store keyed by steel grade, where a key is
 * trimmed and upper-cased before every read and write. The file behind it is
 * a field: `None` stands for a store that is missing or does not parse.
 */
module CacheManager {
  import opened Wrappers
  import opened Text

  /** `steelGrade.trim().toUpperCase()` */
  function Normalize(grade: string): string {
    ToUpper(Trim(grade))
  }

  /** Normalising a key that is already normalised changes nothing. */
  lemma {:induction false} NormalizeIdempotent(grade: string)
    ensures Normalize(Normalize(grade)) == Normalize(grade)
  {
    TrimToUpperCommute(Trim(grade));
    TrimIdempotent(grade);
    ToUpperIdempotent(Trim(grade));
  }

  /** A stored entry: the saved record together with `cached_at`. */
  datatype Cached<D> = Cached(data: D, cached_at: string)

  class CacheStore<D> {
    /** The persisted store; `None` when it is missing or unreadable. */
    var file: Option<map<string, Cached<D>>>

    /** `loadCache()`: a missing or unreadable store reads as empty. */
    function Load(): (m: map<string, Cached<D>>)
      reads this
      ensures file.None? ==> m == map[]
      ensures file.Some? ==> m == file.value
    {
      file.GetOr(map[])
    }

    constructor(persisted: Option<map<string, Cached<D>>>)
      ensures file == persisted
    {
      file := persisted;
    }

    /** `get(steelGrade)`: the entry under the normalised key, or `null`. */
    function Get(grade: string): (r: Option<Cached<D>>)
      reads this
      ensures r.Some? <==> Normalize(grade) in Load()
      ensures r.Some? ==> r.value == Load()[Normalize(grade)]
    {
      var key := Normalize(grade);
      if key in Load() then Some(Load()[key]) else None
    }

    /**
     * `save(steelGrade, data)`: the entry under the normalised key becomes
     * the data stamped with `now`; every other key keeps its entry.
     */
    method Save(grade: string, data: D, now: string)
      modifies this
      ensures file == Some(old(Load())[Normalize(grade) := Cached(data, now)])
      ensures forall g :: Normalize(g) == Normalize(grade) ==> Get(g) == Some(Cached(data, now))
      ensures forall g :: Normalize(g) != Normalize(grade) ==> Get(g) == old(Get(g))
    {
      var cache := Load();
      var key := Normalize(grade);
      cache := cache[key := Cached(data, now)];
      file := Some(cache);
    }

    /** `clear()`: an empty store is written. */
    method Clear()
      modifies this
      ensures file == Some(map[])
      ensures forall g :: Get(g).None?
    {
      file := Some(map[]);
    }
  }

  /** A read through any spelling of a key sees what a save through another spelling wrote. */
  lemma {:induction false} SaveThenGet<D>(store: map<string, Cached<D>>, saved: string, read: string, data: D, now: string)
    requires Normalize(read) == Normalize(saved)
    ensures Normalize(Normalize(read)) in store[Normalize(saved) := Cached(data, now)]
    ensures store[Normalize(saved) := Cached(data, now)][Normalize(Normalize(read))] == Cached(data, now)
  {
    NormalizeIdempotent(read);
  }
}
